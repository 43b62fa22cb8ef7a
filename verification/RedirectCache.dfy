/** internal/cache and cmd/redirect's lookup: a process-local tier in front of Redis in front of storage,
    purged by the API on every edit and by Pub/Sub messages that may be late or lost. */
module RedirectCache {
  import opened Basics

  type Code = string

  /** Seconds. */
  type Time = int

  const LOCAL_TTL := 30

  datatype Target = Target(id: nat, longUrl: string)

  /** One short_urls row, as far as FindRedirectTarget looks at it. */
  datatype Record = Record(target: Target, active: bool, expiresAt: Option<Time>)

  datatype LocalEntry = LocalEntry(target: Target, setAt: Time)

  type Local = map<Code, LocalEntry>

  function ActiveRecord(record: Record, now: Time): Option<Target> {
    if record.active && (record.expiresAt.None? || now < record.expiresAt.value) then Some(record.target) else None
  }

  /** FindRedirectTarget: only an active, unexpired code has a target. */
  function FindRedirectTarget(storage: map<Code, Record>, code: Code, now: Time): Option<Target> {
    if code in storage then ActiveRecord(storage[code], now) else None
  }

  /** A code has a target exactly while its row is there, active, and not past its expiry. */
  lemma TargetIff(storage: map<Code, Record>, code: Code, now: Time, target: Target)
    ensures FindRedirectTarget(storage, code, now) == Some(target) <==>
              && code in storage && storage[code].target == target && storage[code].active
              && (storage[code].expiresAt.Some? ==> now < storage[code].expiresAt.value)
  {
  }

  function LocalHit(local: Local, code: Code, now: Time): Option<Target> {
    if code in local && now < local[code].setAt + LOCAL_TTL then Some(local[code].target) else None
  }

  /** What is put into the local tier is there for 30 seconds and not longer, and other codes do not notice. */
  lemma LocalEntryLastsThirtySeconds(local: Local, code: Code, target: Target, at: Time, later: Time, other: Code)
    requires at <= later
    ensures var filled := local[code := LocalEntry(target, at)];
      && LocalHit(filled, code, later) == (if later - at < 30 then Some(target) else None)
      && (other != code ==> LocalHit(filled, other, later) == LocalHit(local, other, later))
    ensures LocalHit(local - {code}, code, later) == None
  {
  }

  /** The Redis server every instance shares; no entry carries a TTL. */
  class RedisTier {
    var values: map<Code, Target>
    var published: seq<Code>

    constructor ()
      ensures values == map[] && published == []
    {
      values, published := map[], [];
    }
  }

  class Cache {
    var local: Local
    const redis: RedisTier

    constructor (redis: RedisTier)
      ensures local == map[] && this.redis == redis
    {
      this.redis := redis;
      local := map[];
    }

    /** Local first, then Redis; a Redis hit fills the local tier, a miss or an error fills nothing. */
    method Get(code: Code, now: Time, fault: Fault) returns (value: Option<Target>, err: bool)
      modifies this
      ensures old(LocalHit(local, code, now)).Some? ==>
                value == old(LocalHit(local, code, now)) && !err && local == old(local)
      ensures old(LocalHit(local, code, now)).None? ==>
                && (err <==> fault != NoFault)
                && value == (if !err && code in redis.values then Some(redis.values[code]) else None)
                && local == (if value.Some? then old(local)[code := LocalEntry(value.value, now)] else old(local))
    {
      value, err := LocalHit(local, code, now), false;
      if value.Some? {
        return;
      }
      if fault != NoFault {
        return None, true;
      }
      if code in redis.values {
        value := Some(redis.values[code]);
        local := local[code := LocalEntry(value.value, now)];
      }
    }

    /** Writes Redis, then the local tier unless Redis reported an error. */
    method Set(code: Code, target: Target, now: Time, fault: Fault) returns (err: bool)
      modifies this, redis`values
      ensures err <==> fault != NoFault
      ensures redis.values == if fault.TookEffect() then old(redis.values)[code := target] else old(redis.values)
      ensures local == if err then old(local) else old(local)[code := LocalEntry(target, now)]
    {
      err := fault != NoFault;
      if fault.TookEffect() {
        redis.values := redis.values[code := target];
      }
      if !err {
        local := local[code := LocalEntry(target, now)];
      }
    }

    /** Nothing is published unless the Redis key is known to be gone. */
    method Invalidate(code: Code, delFault: Fault, publishFault: Fault) returns (err: bool)
      modifies this, redis
      ensures err <==> delFault != NoFault || publishFault != NoFault
      ensures local == old(local) - {code}
      ensures redis.values == if delFault.TookEffect() then old(redis.values) - {code} else old(redis.values)
      ensures redis.published == if delFault == NoFault && publishFault.TookEffect() then old(redis.published) + [code]
                                 else old(redis.published)
      ensures !err ==> code !in redis.values && code in redis.published
    {
      local := local - {code};
      if delFault.TookEffect() {
        redis.values := redis.values - {code};
      }
      if delFault != NoFault {
        return true;
      }
      if publishFault.TookEffect() {
        redis.published := redis.published + [code];
      }
      return publishFault != NoFault;
    }

    /** One message of the Subscribe loop. */
    method Evict(code: Code)
      modifies this
      ensures local == old(local) - {code}
    {
      local := local - {code};
    }

    /** handleRedirect's lookup: what the caches say, else what storage says, cached on the way out. A cache
        that cannot be read or written never turns an active code into a 404. */
    method HandleRedirect(storage: map<Code, Record>, code: Code, now: Time, getFault: Fault, setFault: Fault)
      returns (served: Option<Target>)
      modifies this, redis`values
      ensures var hit, stored := old(LocalHit(local, code, now)), FindRedirectTarget(storage, code, now);
        if hit.Some? then served == hit && local == old(local) && redis.values == old(redis.values)
        else if getFault == NoFault && code in old(redis.values) then
          && served == Some(old(redis.values)[code]) && redis.values == old(redis.values)
          && local == old(local)[code := LocalEntry(served.value, now)]
        else
          && served == stored
          && redis.values == (if stored.Some? && setFault.TookEffect() then old(redis.values)[code := stored.value]
                              else old(redis.values))
          && local == (if stored.Some? && setFault == NoFault then old(local)[code := LocalEntry(stored.value, now)]
                       else old(local))
    {
      var cached, err := Get(code, now, getFault);
      if !err && cached.Some? {
        return cached;
      }
      served := FindRedirectTarget(storage, code, now);
      if served.Some? {
        err := Set(code, served.value, now, setFault);
      }
    }
  }

  // ----- The distributed system, one read or write at a time -----

  /** One redirect request on one instance, between two of its cache or storage calls. */
  datatype Request =
    | Idle
    | AskRedis(inst: nat, code: Code)
    | AskStorage(inst: nat, code: Code)
    | FillRedis(inst: nat, code: Code, target: Target)
    | FillLocal(inst: nat, code: Code, target: Target)
    | Serving(inst: nat, code: Code, target: Target)

  datatype State = State(
    storage: map<Code, Record>,
    redis: map<Code, Target>,
    locals: seq<Local>,
    requests: seq<Request>,
    messages: multiset<(nat, Code)>,
    now: Time)

  datatype Action =
    | Write(code: Code, record: Record)
    | PurgeRedis(code: Code, fault: Fault)
    | Publish(code: Code, inst: nat)
    | Deliver(inst: nat, code: Code)
    | DropMessage(inst: nat, code: Code)
    | EvictLocal(inst: nat, code: Code)
    | EvictRedis(code: Code)
    | Begin(slot: nat, inst: nat, code: Code)
    | Advance(slot: nat, fault: Fault)
    | Finish(slot: nat)
    | Tick(seconds: nat)

  function Init(instances: nat, slots: nat): State {
    State(map[], map[], seq(instances, _ => map[]), seq(slots, _ => Idle), multiset{}, 0)
  }

  /** The target storage would give a reader of this state. */
  function Active(s: State, code: Code): Option<Target> {
    FindRedirectTarget(s.storage, code, s.now)
  }

  function NextRequest(s: State, r: Request, fault: Fault): Request {
    match r
    case AskRedis(inst, code) =>
      if fault == NoFault && code in s.redis then FillLocal(inst, code, s.redis[code]) else AskStorage(inst, code)
    case AskStorage(inst, code) =>
      (match Active(s, code) case Some(target) => FillRedis(inst, code, target) case None => Idle)
    case FillRedis(inst, code, target) =>
      if fault == NoFault then FillLocal(inst, code, target) else Serving(inst, code, target)
    case FillLocal(inst, code, target) => Serving(inst, code, target)
    case _ => r
  }

  function Step(s: State, a: Action): State {
    match a
    case Write(code, record) => s.(storage := s.storage[code := record])
    case PurgeRedis(code, fault) => if fault.TookEffect() then s.(redis := s.redis - {code}) else s
    case Publish(code, inst) => s.(messages := s.messages + multiset{(inst, code)})
    case Deliver(inst, code) =>
      if (inst, code) in s.messages && inst < |s.locals|
      then s.(messages := s.messages - multiset{(inst, code)}, locals := s.locals[inst := s.locals[inst] - {code}]) else s
    case DropMessage(inst, code) => s.(messages := s.messages - multiset{(inst, code)})
    case EvictLocal(inst, code) => if inst < |s.locals| then s.(locals := s.locals[inst := s.locals[inst] - {code}]) else s
    case EvictRedis(code) => s.(redis := s.redis - {code})
    case Begin(slot, inst, code) =>
      if slot < |s.requests| && s.requests[slot].Idle? && inst < |s.locals| then
        s.(requests := s.requests[slot :=
          match LocalHit(s.locals[inst], code, s.now)
          case Some(target) => Serving(inst, code, target)
          case None => AskRedis(inst, code)])
      else s
    case Advance(slot, fault) => if slot < |s.requests| then AdvanceStep(s, slot, fault) else s
    case Finish(slot) => if slot < |s.requests| then s.(requests := s.requests[slot := Idle]) else s
    case Tick(seconds) => s.(now := s.now + seconds)
  }

  function AdvanceStep(s: State, slot: nat, fault: Fault): State
    requires slot < |s.requests|
  {
    var r := s.requests[slot];
    var s' := s.(requests := s.requests[slot := NextRequest(s, r, fault)]);
    if r.FillRedis? && fault.TookEffect() then s'.(redis := s.redis[r.code := r.target])
    else if r.FillLocal? && r.inst < |s.locals| then
      s'.(locals := s.locals[r.inst := s.locals[r.inst][r.code := LocalEntry(r.target, s.now)]])
    else s'
  }

  /** A message reaches one instance once, takes one code out of its local tier, and changes nothing else; without a
      message nothing happens. */
  lemma DeliverChanges(s: State, inst: nat, code: Code)
    requires inst < |s.locals|
    ensures var s' := Step(s, Deliver(inst, code));
      if (inst, code) !in s.messages then s' == s
      else
        && code !in s'.locals[inst] && (forall c :: c in s.locals[inst] && c != code ==> c in s'.locals[inst])
        && (forall c :: c in s'.locals[inst] ==> c in s.locals[inst] && s'.locals[inst][c] == s.locals[inst][c])
        && (forall i :: 0 <= i < |s.locals| && i != inst ==> s'.locals[i] == s.locals[i])
        && s'.messages + multiset{(inst, code)} == s.messages
        && s' == s.(locals := s'.locals, messages := s'.messages) && |s'.locals| == |s.locals|
  {
    if (inst, code) in s.messages {
      assert s.messages - multiset{(inst, code)} + multiset{(inst, code)} == s.messages;
    }
  }

  /** Losing a message is delivering it without its effect. */
  lemma DropChanges(s: State, inst: nat, code: Code)
    requires inst < |s.locals|
    ensures Step(s, DropMessage(inst, code)) == s.(messages := Step(s, Deliver(inst, code)).messages)
  {
    if (inst, code) !in s.messages {
      assert s.messages - multiset{(inst, code)} == s.messages;
    }
  }

  /** Evicting a code is delivering a message for it that was just sent. */
  lemma EvictChanges(s: State, inst: nat, code: Code)
    requires inst < |s.locals|
    ensures Step(s, EvictLocal(inst, code)) == Step(Step(s, Publish(code, inst)), Deliver(inst, code))
  {
    assert s.messages + multiset{(inst, code)} - multiset{(inst, code)} == s.messages;
  }

  /** A published message is there to be delivered. */
  lemma PublishChanges(s: State, inst: nat, code: Code)
    ensures var s' := Step(s, Publish(code, inst));
      s' == s.(messages := s'.messages) && s'.messages == s.messages + multiset{(inst, code)}
  {
  }

  /** A request starts only on a free slot, with what the local tier has, or with a question to Redis. */
  lemma BeginChanges(s: State, slot: nat, inst: nat, code: Code)
    requires slot < |s.requests| && inst < |s.locals|
    ensures var s' := Step(s, Begin(slot, inst, code)); var hit := LocalHit(s.locals[inst], code, s.now);
      && s' == s.(requests := s'.requests) && |s'.requests| == |s.requests|
      && (forall i :: 0 <= i < |s.requests| && i != slot ==> s'.requests[i] == s.requests[i])
      && s'.requests[slot] == if !s.requests[slot].Idle? then s.requests[slot]
                              else if hit.Some? then Serving(inst, code, hit.value) else AskRedis(inst, code)
  {
  }

  function Run(s: State, actions: seq<Action>): State {
    if actions == [] then s
    else Step(Run(s, actions[..|actions| - 1]), actions[|actions| - 1])
  }

  lemma RunSnoc(s: State, actions: seq<Action>, a: Action)
    ensures Run(s, actions + [a]) == Step(Run(s, actions), a)
  {
    assert (actions + [a])[..|actions|] == actions;
  }

  /** What HandleRedirect answers when no call fails. */
  function Lookup(s: State, inst: nat, code: Code): Option<Target>
    requires inst < |s.locals|
  {
    var hit := LocalHit(s.locals[inst], code, s.now);
    if hit.Some? then hit else if code in s.redis then Some(s.redis[code]) else Active(s, code)
  }

  /** `n` further steps of one request, none failing and none of another request in between. */
  function Drive(s: State, slot: nat, n: nat): State
    decreases n
  {
    if n == 0 then s else Drive(Step(s, Advance(slot, NoFault)), slot, n - 1)
  }

  lemma {:induction false} DriveSettled(s: State, slot: nat, n: nat)
    requires slot < |s.requests| && (s.requests[slot].Serving? || s.requests[slot].Idle?)
    ensures Drive(s, slot, n) == s
    decreases n
  {
    if n > 0 {
      assert s.requests[slot := s.requests[slot]] == s.requests;
      assert Step(s, Advance(slot, NoFault)) == s;
      DriveSettled(s, slot, n - 1);
    }
  }

  /** The request is about to answer with `target`, which its instance now has cached. */
  ghost predicate Answered(s: State, slot: nat, inst: nat, code: Code, target: Target) {
    && slot < |s.requests| && inst < |s.locals|
    && s.requests[slot] == Serving(inst, code, target)
    && LocalHit(s.locals[inst], code, s.now) == Some(target)
  }

  lemma FillLocalAnswers(s: State, slot: nat)
    requires slot < |s.requests| && s.requests[slot].FillLocal? && s.requests[slot].inst < |s.locals|
    ensures var r := s.requests[slot]; var s' := Step(s, Advance(slot, NoFault));
      Answered(s', slot, r.inst, r.code, r.target) && s'.redis == s.redis
  {
  }

  lemma AskStorageAnswers(s: State, slot: nat)
    requires slot < |s.requests| && s.requests[slot].AskStorage? && s.requests[slot].inst < |s.locals|
    ensures var r := s.requests[slot]; var s' := Drive(s, slot, 3); var active := Active(s, r.code);
      && (active.Some? ==> Answered(s', slot, r.inst, r.code, active.value)
                           && r.code in s'.redis && s'.redis[r.code] == active.value)
      && (active.None? ==> slot < |s'.requests| && s'.requests[slot].Idle?)
  {
    var s1 := Step(s, Advance(slot, NoFault));
    assert Drive(s, slot, 3) == Drive(s1, slot, 2);
    if s1.requests[slot].Idle? {
      DriveSettled(s1, slot, 2);
    } else {
      var s2 := Step(s1, Advance(slot, NoFault));
      assert Drive(s1, slot, 2) == Drive(s2, slot, 1);
      FillLocalAnswers(s2, slot);
      assert Drive(s2, slot, 1) == Drive(Step(s2, Advance(slot, NoFault)), slot, 0);
    }
  }

  lemma AskRedisAnswers(s: State, slot: nat)
    requires slot < |s.requests| && s.requests[slot].AskRedis? && s.requests[slot].inst < |s.locals|
    ensures var r := s.requests[slot]; var s' := Drive(s, slot, 4);
      && (r.code in s.redis ==> Answered(s', slot, r.inst, r.code, s.redis[r.code]))
      && (r.code !in s.redis && Active(s, r.code).Some? ==>
            && Answered(s', slot, r.inst, r.code, Active(s, r.code).value)
            && r.code in s'.redis && s'.redis[r.code] == Active(s, r.code).value)
      && (r.code !in s.redis && Active(s, r.code).None? ==> slot < |s'.requests| && s'.requests[slot].Idle?)
  {
    var s1 := Step(s, Advance(slot, NoFault));
    assert Drive(s, slot, 4) == Drive(s1, slot, 3);
    if s.requests[slot].code in s.redis {
      var s2 := Step(s1, Advance(slot, NoFault));
      assert Drive(s1, slot, 3) == Drive(s2, slot, 2);
      FillLocalAnswers(s1, slot);
      DriveSettled(s2, slot, 2);
    } else {
      AskStorageAnswers(s1, slot);
    }
  }

  /** A request nobody interrupts: found in a cache or in storage, it answers what HandleRedirect does. */
  function Uninterrupted(s: State, slot: nat, inst: nat, code: Code): State {
    Drive(Step(s, Begin(slot, inst, code)), slot, 4)
  }

  lemma UninterruptedRequest(s: State, slot: nat, inst: nat, code: Code)
    requires slot < |s.requests| && s.requests[slot].Idle? && inst < |s.locals|
    ensures var s' := Uninterrupted(s, slot, inst, code); var answer := Lookup(s, inst, code);
      && (answer.Some? ==> Answered(s', slot, inst, code, answer.value))
      && (answer.None? ==> slot < |s'.requests| && s'.requests[slot].Idle?)
  {
    var s1 := Step(s, Begin(slot, inst, code));
    if s1.requests[slot].Serving? {
      DriveSettled(s1, slot, 4);
    } else {
      AskRedisAnswers(s1, slot);
    }
  }

  // ----- Historical soundness -----

  /** At some moment of the run, storage had this target for the code. */
  ghost predicate EverActive(s: State, actions: seq<Action>, code: Code, target: Target) {
    exists i :: 0 <= i <= |actions| && Active(Run(s, actions[..i]), code) == Some(target)
  }

  lemma EverActiveLater(s: State, actions: seq<Action>, a: Action, code: Code, target: Target)
    requires EverActive(s, actions, code, target)
    ensures EverActive(s, actions + [a], code, target)
  {
    var i :| 0 <= i <= |actions| && Active(Run(s, actions[..i]), code) == Some(target);
    assert (actions + [a])[..i] == actions[..i];
  }

  lemma ActiveNowIsEverActive(s: State, actions: seq<Action>, code: Code)
    requires Active(Run(s, actions), code).Some?
    ensures EverActive(s, actions, code, Active(Run(s, actions), code).value)
  {
    assert actions[..|actions|] == actions;
  }

  predicate Carries(r: Request) {
    r.FillRedis? || r.FillLocal? || r.Serving?
  }

  predicate CarriesTarget(r: Request, code: Code, target: Target) {
    Carries(r) && r.code == code && r.target == target
  }

  /** Every target cached, on its way into a cache, or about to be served. */
  ghost predicate Holds(s: State, code: Code, target: Target) {
    || (code in s.redis && s.redis[code] == target)
    || (exists i :: 0 <= i < |s.locals| && code in s.locals[i] && s.locals[i][code].target == target)
    || (exists k :: 0 <= k < |s.requests| && CarriesTarget(s.requests[k], code, target))
  }

  /** A step of another kind than a request's own only removes entries, or serves a local one. */
  lemma OtherStepsCreateNothing(s: State, a: Action, code: Code, target: Target)
    requires !a.Advance? && Holds(Step(s, a), code, target)
    ensures Holds(s, code, target)
  {
    var s' := Step(s, a);
    if i :| 0 <= i < |s'.locals| && code in s'.locals[i] && s'.locals[i][code].target == target {
      assert code in s.locals[i] && s.locals[i][code].target == target;
    } else if k :| 0 <= k < |s'.requests| && CarriesTarget(s'.requests[k], code, target) {
      assert s'.requests[k] == s.requests[k];
    }
  }

  /** A step creates no target out of thin air: it moves ones already held, or reads the active one. */
  lemma NothingNewUnlessRead(s: State, a: Action, code: Code, target: Target)
    requires Holds(Step(s, a), code, target)
    ensures Holds(s, code, target) || Active(s, code) == Some(target)
  {
    if a.Advance? {
      if a.slot < |s.requests| {
        AdvanceCreatesNothing(s, a.slot, a.fault, code, target);
      }
    } else {
      OtherStepsCreateNothing(s, a, code, target);
    }
  }

  lemma AdvanceCreatesNothing(s: State, slot: nat, fault: Fault, code: Code, target: Target)
    requires slot < |s.requests| && Holds(AdvanceStep(s, slot, fault), code, target)
    ensures Holds(s, code, target) || Active(s, code) == Some(target)
  {
    var s' := AdvanceStep(s, slot, fault);
    var r := s.requests[slot];
    if Carries(r) && r.code == code && r.target == target {
      assert Holds(s, code, target);
    } else if i :| 0 <= i < |s'.locals| && code in s'.locals[i] && s'.locals[i][code].target == target {
      assert code in s.locals[i] && s.locals[i][code].target == target;
    } else if k :| 0 <= k < |s'.requests| && CarriesTarget(s'.requests[k], code, target) {
      if k != slot {
        assert s'.requests[k] == s.requests[k];
      }
    }
  }

  ghost predicate SoundSoFar(s0: State, actions: seq<Action>, code: Code, target: Target) {
    Holds(Run(s0, actions), code, target) ==> EverActive(s0, actions, code, target)
  }

  lemma SoundnessExtends(s0: State, earlier: seq<Action>, a: Action, code: Code, target: Target)
    requires SoundSoFar(s0, earlier, code, target)
    ensures SoundSoFar(s0, earlier + [a], code, target)
  {
    var s := Run(s0, earlier);
    RunSnoc(s0, earlier, a);
    if Holds(Step(s, a), code, target) {
      NothingNewUnlessRead(s, a, code, target);
      if Active(s, code) == Some(target) {
        ActiveNowIsEverActive(s0, earlier, code);
      }
      EverActiveLater(s0, earlier, a, code, target);
    }
  }

  lemma {:induction false} SoundFromTheStart(s0: State, actions: seq<Action>, code: Code, target: Target)
    requires SoundSoFar(s0, [], code, target)
    ensures SoundSoFar(s0, actions, code, target)
    decreases |actions|
  {
    if actions != [] {
      var n := |actions| - 1;
      assert |actions[..n]| == n;
      SoundFromTheStart(s0, actions[..n], code, target);
      assert actions == actions[..n] + [actions[n]];
      SoundnessExtends(s0, actions[..n], actions[n], code, target);
    }
  }

  /** Whatever is cached, in flight or served for a code was, at some earlier moment of the run, that code's
      active target in storage, under every interleaving, loss and eviction. */
  lemma HistoricallySound(instances: nat, slots: nat, actions: seq<Action>, code: Code, target: Target)
    requires Holds(Run(Init(instances, slots), actions), code, target)
    ensures EverActive(Init(instances, slots), actions, code, target)
  {
    assert !Holds(Init(instances, slots), code, target);
    SoundFromTheStart(Init(instances, slots), actions, code, target);
  }

  /** Yet soundness is only historical: a Redis entry has no TTL, so unless something purges it a code goes on
      being served after it has expired, although storage would answer that it does not exist. */
  lemma ExpiredCodeIsStillServed(s: State, slot: nat, inst: nat, code: Code, wait: nat)
    requires slot < |s.requests| && s.requests[slot].Idle? && inst < |s.locals|
    requires code in s.redis && code in s.storage && s.storage[code].expiresAt.Some?
    requires s.now + wait >= s.storage[code].expiresAt.value
    requires LocalHit(s.locals[inst], code, s.now + wait).None?
    ensures var later := Step(s, Tick(wait));
      && Active(later, code) == None
      && Answered(Uninterrupted(later, slot, inst, code), slot, inst, code, s.redis[code])
  {
    UninterruptedRequest(Step(s, Tick(wait)), slot, inst, code);
  }

  // ----- Bounded staleness after a purge -----

  ghost predicate Refused(s: State, slot: nat) {
    slot < |s.requests| && s.requests[slot].Idle?
  }

  /** A code that is expired, disabled or unknown is refused, as it must be, exactly when neither the instance's
      local tier nor Redis still has it. */
  lemma DeadCodeIsRefusedIff(s: State, slot: nat, inst: nat, code: Code)
    requires slot < |s.requests| && s.requests[slot].Idle? && inst < |s.locals|
    requires Active(s, code).None?
    ensures Refused(Uninterrupted(s, slot, inst, code), slot) <==>
              LocalHit(s.locals[inst], code, s.now).None? && code !in s.redis
  {
    UninterruptedRequest(s, slot, inst, code);
  }

  /** Step i stores the code in Redis. */
  ghost predicate FillsAt(s0: State, actions: seq<Action>, i: nat, code: Code)
    requires i < |actions|
  {
    var s, a := Run(s0, actions[..i]), actions[i];
    && a.Advance? && a.fault.TookEffect() && a.slot < |s.requests|
    && s.requests[a.slot].FillRedis? && s.requests[a.slot].code == code
  }

  predicate Removes(a: Action, code: Code) {
    (a.PurgeRedis? && a.code == code && a.fault.TookEffect()) || a == EvictRedis(code)
  }

  /** Some step stored the code in Redis, and none has removed it since. */
  ghost predicate FilledAndKept(s0: State, actions: seq<Action>, code: Code) {
    exists i: nat :: i < |actions| && FillsAt(s0, actions, i, code) && KeptFrom(actions, i + 1, code)
  }

  ghost predicate KeptFrom(actions: seq<Action>, n: nat, code: Code) {
    forall j :: n <= j < |actions| ==> !Removes(actions[j], code)
  }

  lemma RedisAfterStep(s: State, a: Action, code: Code)
    ensures code in Step(s, a).redis <==>
              (a.Advance? && a.fault.TookEffect() && a.slot < |s.requests|
               && s.requests[a.slot].FillRedis? && s.requests[a.slot].code == code)
              || (code in s.redis && !Removes(a, code))
  {
  }

  lemma FillsAtLater(s0: State, actions: seq<Action>, a: Action, i: nat, code: Code)
    requires i < |actions|
    ensures FillsAt(s0, actions + [a], i, code) <==> FillsAt(s0, actions, i, code)
    ensures KeptFrom(actions + [a], i + 1, code) <==> KeptFrom(actions, i + 1, code) && !Removes(a, code)
  {
    var more := actions + [a];
    assert more[..i] == actions[..i] && more[|actions|] == a;
    assert forall j :: 0 <= j < |actions| ==> more[j] == actions[j];
  }

  lemma FilledAndKeptSnoc(s0: State, actions: seq<Action>, a: Action, code: Code)
    ensures FilledAndKept(s0, actions + [a], code) <==>
              FillsAt(s0, actions + [a], |actions|, code) || (FilledAndKept(s0, actions, code) && !Removes(a, code))
  {
    var more, n := actions + [a], |actions|;
    if FillsAt(s0, more, n, code) {
      assert KeptFrom(more, n + 1, code);
    } else if FilledAndKept(s0, more, code) {
      var i: nat :| i < |more| && FillsAt(s0, more, i, code) && KeptFrom(more, i + 1, code);
      FillsAtLater(s0, actions, a, i, code);
    } else if FilledAndKept(s0, actions, code) {
      var i: nat :| i < n && FillsAt(s0, actions, i, code) && KeptFrom(actions, i + 1, code);
      FillsAtLater(s0, actions, a, i, code);
    }
  }

  /** Nothing else ends an entry's life: over every run Redis has a code if and only if some fill of it was
      followed by no purge and no eviction of it. */
  lemma {:induction false} InRedisIffFilledAndKept(s0: State, actions: seq<Action>, code: Code)
    requires code !in s0.redis
    ensures code in Run(s0, actions).redis <==> FilledAndKept(s0, actions, code)
    decreases |actions|
  {
    if actions != [] {
      var n := |actions| - 1;
      var earlier := actions[..n];
      InRedisIffFilledAndKept(s0, earlier, code);
      assert actions == earlier + [actions[n]] && actions[..n] == earlier;
      FilledAndKeptSnoc(s0, earlier, actions[n], code);
      RedisAfterStep(Run(s0, earlier), actions[n], code);
    }
  }

  /** Over every run: a request for a code that storage no longer redirects is refused if and only if the local
      tier has no fresh entry and every fill of Redis has been purged or evicted since. */
  lemma DeadCodeIsRefusedOverRunsIff(instances: nat, slots: nat, actions: seq<Action>, slot: nat, inst: nat, code: Code)
    requires var s := Run(Init(instances, slots), actions);
      slot < |s.requests| && s.requests[slot].Idle? && inst < |s.locals| && Active(s, code).None?
    ensures var s := Run(Init(instances, slots), actions);
      Refused(Uninterrupted(s, slot, inst, code), slot) <==>
        LocalHit(s.locals[inst], code, s.now).None? && !FilledAndKept(Init(instances, slots), actions, code)
  {
    DeadCodeIsRefusedIff(Run(Init(instances, slots), actions), slot, inst, code);
    InRedisIffFilledAndKept(Init(instances, slots), actions, code);
  }

  lemma RunOnwards(s0: State, actions: seq<Action>, s: State, a: Action, s': State)
    requires Run(s0, actions) == s && Step(s, a) == s'
    ensures Run(s0, actions + [a]) == s'
  {
    RunSnoc(s0, actions, a);
  }

  /** One instance, one request slot, and one code that expires. */
  function Site(code: Code, target: Target, lifetime: nat, cached: bool, stored: bool, request: Request): State {
    State(map[code := Record(target, true, Some(lifetime))], if stored then map[code := target] else map[],
          [if cached then map[code := LocalEntry(target, 0)] else map[]], [request], multiset{}, 0)
  }

  lemma SiteLooksUp(code: Code, target: Target, lifetime: nat)
    requires lifetime > 0
    ensures Step(Init(1, 1), Write(code, Record(target, true, Some(lifetime)))) ==
            Site(code, target, lifetime, false, false, Idle)
    ensures Step(Site(code, target, lifetime, false, false, Idle), Begin(0, 0, code)) ==
            Site(code, target, lifetime, false, false, AskRedis(0, code))
    ensures Step(Site(code, target, lifetime, false, false, AskRedis(0, code)), Advance(0, NoFault)) ==
            Site(code, target, lifetime, false, false, AskStorage(0, code))
  {
    var empty: Local := map[];
    assert Init(1, 1).locals == [empty] && Init(1, 1).requests == [Idle];
  }

  lemma SiteFills(code: Code, target: Target, lifetime: nat)
    requires lifetime > 0
    ensures Step(Site(code, target, lifetime, false, false, AskStorage(0, code)), Advance(0, NoFault)) ==
            Site(code, target, lifetime, false, false, FillRedis(0, code, target))
    ensures Step(Site(code, target, lifetime, false, false, FillRedis(0, code, target)), Advance(0, NoFault)) ==
            Site(code, target, lifetime, false, true, FillLocal(0, code, target))
  {
  }

  lemma SiteServes(code: Code, target: Target, lifetime: nat)
    ensures Step(Site(code, target, lifetime, false, true, FillLocal(0, code, target)), Advance(0, NoFault)) ==
            Site(code, target, lifetime, true, true, Serving(0, code, target))
    ensures Step(Site(code, target, lifetime, true, true, Serving(0, code, target)), Finish(0)) ==
            Site(code, target, lifetime, true, true, Idle)
  {
  }

  /** One visit while the code is active. */
  lemma FirstVisit(code: Code, target: Target, lifetime: nat) returns (actions: seq<Action>)
    requires lifetime > 0
    ensures Run(Init(1, 1), actions) == Site(code, target, lifetime, true, true, Idle)
  {
    SiteLooksUp(code, target, lifetime);
    SiteFills(code, target, lifetime);
    SiteServes(code, target, lifetime);
    var s0, go := Init(1, 1), Advance(0, NoFault);
    var visit := [Write(code, Record(target, true, Some(lifetime))), Begin(0, 0, code), go, go, go, go, Finish(0)];
    actions := [];
    var s := s0;
    var n := 0;
    while n < |visit|
      invariant 0 <= n <= |visit| && Run(s0, actions) == s
      invariant s == VisitState(code, target, lifetime, n)
    {
      RunOnwards(s0, actions, s, visit[n], VisitState(code, target, lifetime, n + 1));
      actions, s, n := actions + [visit[n]], VisitState(code, target, lifetime, n + 1), n + 1;
    }
  }

  function VisitState(code: Code, target: Target, lifetime: nat, n: nat): State {
    if n == 0 then Init(1, 1)
    else if n == 1 then Site(code, target, lifetime, false, false, Idle)
    else if n == 2 then Site(code, target, lifetime, false, false, AskRedis(0, code))
    else if n == 3 then Site(code, target, lifetime, false, false, AskStorage(0, code))
    else if n == 4 then Site(code, target, lifetime, false, false, FillRedis(0, code, target))
    else if n == 5 then Site(code, target, lifetime, false, true, FillLocal(0, code, target))
    else if n == 6 then Site(code, target, lifetime, true, true, Serving(0, code, target))
    else Site(code, target, lifetime, true, true, Idle)
  }

  /** And the bad state is reached: one visit while a code is active, and it is served at every later moment at
      which it has expired and the local entry is stale. */
  lemma ExpiryIsOutlived(code: Code, target: Target, lifetime: nat, wait: nat) returns (actions: seq<Action>)
    requires 0 < lifetime <= wait && LOCAL_TTL <= wait
    ensures var s := Run(Init(1, 1), actions);
      && s.now == wait && Active(s, code) == None && |s.requests| == |s.locals| == 1 && s.requests[0].Idle?
      && Answered(Uninterrupted(s, 0, 0, code), 0, 0, code, target)
  {
    actions := FirstVisit(code, target, lifetime);
    var s := Site(code, target, lifetime, true, true, Idle);
    ExpiredCodeIsStillServed(s, 0, 0, code, wait);
    RunOnwards(Init(1, 1), actions, s, Tick(wait), s.(now := wait));
    actions := actions + [Tick(wait)];
  }

  /** A request for this code that already holds a target to write into a cache. */
  predicate Filling(r: Request, code: Code) {
    (r.FillRedis? || r.FillLocal?) && r.code == code
  }

  /** No fill for the code still carries a target other than the one active now. */
  ghost predicate NoStaleFill(s: State, code: Code) {
    forall k :: 0 <= k < |s.requests| && Filling(s.requests[k], code) ==> Active(s, code) == Some(s.requests[k].target)
  }

  ghost predicate Purged(s: State, code: Code) {
    && code !in s.redis && NoStaleFill(s, code)
    && (forall i :: 0 <= i < |s.locals| && code in s.locals[i] ==> s.locals[i][code].setAt <= s.now)
  }

  /** The targets a code has had during a run. */
  ghost function Known(s0: State, actions: seq<Action>, code: Code): iset<Target> {
    iset target | EverActive(s0, actions, code, target)
  }

  lemma KnownGrows(s0: State, actions: seq<Action>, a: Action, code: Code)
    ensures Known(s0, actions, code) <= Known(s0, actions + [a], code)
    ensures Active(Run(s0, actions), code).Some? ==> Active(Run(s0, actions), code).value in Known(s0, actions, code)
  {
    forall target | target in Known(s0, actions, code) ensures target in Known(s0, actions + [a], code) {
      EverActiveLater(s0, actions, a, code, target);
    }
    if Active(Run(s0, actions), code).Some? {
      ActiveNowIsEverActive(s0, actions, code);
    }
  }

  /** Redis and the fills that can reach it hold only known targets for the code. */
  ghost predicate RedisFresh(s: State, code: Code, known: iset<Target>) {
    && (code in s.redis ==> s.redis[code] in known)
    && (forall k :: 0 <= k < |s.requests| && s.requests[k].FillRedis? && s.requests[k].code == code ==>
          s.requests[k].target in known)
  }

  ghost predicate LocalFillsFresh(s: State, code: Code, known: iset<Target>) {
    forall k :: 0 <= k < |s.requests| && s.requests[k].FillLocal? && s.requests[k].code == code ==>
      s.requests[k].target in known
  }

  /** A local entry holds a known target, or was set no later than `since`. */
  ghost predicate LocalsFresh(s: State, code: Code, known: iset<Target>, since: Time) {
    forall i :: 0 <= i < |s.locals| && code in s.locals[i] ==>
      s.locals[i][code].target in known || s.locals[i][code].setAt <= since
  }

  lemma RedisFreshStep(s: State, a: Action, code: Code, known: iset<Target>)
    requires RedisFresh(s, code, known) && (Active(s, code).Some? ==> Active(s, code).value in known)
    ensures RedisFresh(Step(s, a), code, known)
  {
  }

  lemma LocalFillsFreshStep(s: State, a: Action, code: Code, known: iset<Target>)
    requires RedisFresh(s, code, known) && LocalFillsFresh(s, code, known)
    ensures LocalFillsFresh(Step(s, a), code, known)
  {
  }

  lemma LocalsFreshStep(s: State, a: Action, code: Code, known: iset<Target>, since: Time)
    requires LocalFillsFresh(s, code, known) && LocalsFresh(s, code, known, since)
    ensures LocalsFresh(Step(s, a), code, known, since)
  {
  }

  ghost predicate FreshSince(s0: State, actions: seq<Action>, code: Code) {
    var s, known := Run(s0, actions), Known(s0, actions, code);
    RedisFresh(s, code, known) && LocalFillsFresh(s, code, known) && LocalsFresh(s, code, known, s0.now)
  }

  lemma {:induction false} FreshAfterPurge(s0: State, actions: seq<Action>, code: Code)
    requires Purged(s0, code)
    ensures FreshSince(s0, actions, code)
    decreases |actions|
  {
    if actions == [] {
      KnownGrows(s0, [], Tick(0), code);
    } else {
      var n := |actions| - 1;
      FreshAfterPurge(s0, actions[..n], code);
      FreshnessExtends(s0, actions[..n], actions[n], code);
      assert actions == actions[..n] + [actions[n]];
    }
  }

  lemma FreshnessExtends(s0: State, earlier: seq<Action>, a: Action, code: Code)
    requires FreshSince(s0, earlier, code)
    ensures FreshSince(s0, earlier + [a], code)
  {
    var s, known := Run(s0, earlier), Known(s0, earlier, code);
    RunSnoc(s0, earlier, a);
    KnownGrows(s0, earlier, a, code);
    RedisFreshStep(s, a, code, known);
    LocalFillsFreshStep(s, a, code, known);
    LocalsFreshStep(s, a, code, known, s0.now);
  }

  ghost predicate SetInThePast(s: State) {
    forall i, code :: 0 <= i < |s.locals| && code in s.locals[i] ==> s.locals[i][code].setAt <= s.now
  }

  lemma SetInThePastStep(s: State, a: Action)
    requires SetInThePast(s)
    ensures SetInThePast(Step(s, a))
  {
    if a.Advance? && a.slot < |s.requests| {
      SetInThePastAdvance(s, a.slot, a.fault);
    }
  }

  lemma SetInThePastAdvance(s: State, slot: nat, fault: Fault)
    requires SetInThePast(s) && slot < |s.requests|
    ensures SetInThePast(AdvanceStep(s, slot, fault))
  {
  }

  lemma {:induction false} SetInThePastAlways(instances: nat, slots: nat, actions: seq<Action>)
    ensures SetInThePast(Run(Init(instances, slots), actions))
  {
    if actions != [] {
      var n := |actions| - 1;
      SetInThePastAlways(instances, slots, actions[..n]);
      SetInThePastStep(Run(Init(instances, slots), actions[..n]), actions[n]);
    }
  }

  /** Invalidate's DEL, on any reachable state with no older fill in flight, starts the bounds below. */
  lemma PurgeTakesHold(instances: nat, slots: nat, history: seq<Action>, code: Code, fault: Fault)
    requires fault.TookEffect() && NoStaleFill(Run(Init(instances, slots), history), code)
    ensures Purged(Run(Init(instances, slots), history + [PurgeRedis(code, fault)]), code)
  {
    SetInThePastAlways(instances, slots, history);
    RunSnoc(Init(instances, slots), history, PurgeRedis(code, fault));
  }

  /** Once the Redis key is gone and no older fill is in flight, Redis never again yields a target the code
      has not had since. */
  lemma RedisIsFreshAfterPurge(s0: State, actions: seq<Action>, code: Code)
    requires Purged(s0, code) && code in Run(s0, actions).redis
    ensures EverActive(s0, actions, code, Run(s0, actions).redis[code])
  {
    FreshAfterPurge(s0, actions, code);
  }

  /** Even if its message is lost, an instance stops serving the old target 30 seconds after the purge. */
  lemma LocalTierCatchesUp(s0: State, actions: seq<Action>, code: Code, inst: nat)
    requires Purged(s0, code) && inst < |Run(s0, actions).locals|
    requires Run(s0, actions).now >= s0.now + LOCAL_TTL
    requires var s := Run(s0, actions); LocalHit(s.locals[inst], code, s.now).Some?
    ensures var s := Run(s0, actions); EverActive(s0, actions, code, LocalHit(s.locals[inst], code, s.now).value)
  {
    FreshAfterPurge(s0, actions, code);
  }

  ghost predicate LocalFresh(s: State, code: Code, known: iset<Target>, inst: nat) {
    inst < |s.locals| && code in s.locals[inst] ==> s.locals[inst][code].target in known
  }

  lemma LocalFreshStep(s: State, a: Action, code: Code, known: iset<Target>, inst: nat)
    requires LocalFillsFresh(s, code, known) && LocalFresh(s, code, known, inst)
    ensures LocalFresh(Step(s, a), code, known, inst)
  {
  }

  lemma {:induction false} LocalFreshOnceEvicted(s0: State, before: seq<Action>, after: seq<Action>, code: Code,
                                                 inst: nat)
    requires Purged(s0, code) && (inst, code) in Run(s0, before).messages
    ensures var actions := before + [Deliver(inst, code)] + after;
      LocalFresh(Run(s0, actions), code, Known(s0, actions, code), inst)
  {
    var delivered := before + [Deliver(inst, code)];
    if after == [] {
      RunSnoc(s0, before, Deliver(inst, code));
      assert delivered + after == delivered;
    } else {
      var n := |after| - 1;
      var actions, a := delivered + after[..n], after[n];
      LocalFreshOnceEvicted(s0, before, after[..n], code, inst);
      FreshAfterPurge(s0, actions, code);
      assert delivered + after == actions + [a];
      RunSnoc(s0, actions, a);
      KnownGrows(s0, actions, a, code);
      LocalFreshStep(Run(s0, actions), a, code, Known(s0, actions, code), inst);
    }
  }

  /** From the moment its message arrives, an instance's local tier only holds targets active since the purge. */
  lemma DeliveryEndsStaleness(s0: State, before: seq<Action>, after: seq<Action>, code: Code, inst: nat)
    requires Purged(s0, code) && (inst, code) in Run(s0, before).messages
    requires var s := Run(s0, before + [Deliver(inst, code)] + after); inst < |s.locals| && code in s.locals[inst]
    ensures var actions := before + [Deliver(inst, code)] + after;
      EverActive(s0, actions, code, Run(s0, actions).locals[inst][code].target)
  {
    LocalFreshOnceEvicted(s0, before, after, code, inst);
  }

  /** A fill that read storage before the edit and has not yet written Redis. */
  ghost predicate StaleRedisFill(s: State, code: Code, k: nat) {
    && k < |s.requests| && s.requests[k].FillRedis? && s.requests[k].code == code
    && Active(s, code) != Some(s.requests[k].target)
  }

  lemma {:induction false} RedisFreshUnlessStaleFill(s0: State, actions: seq<Action>, code: Code)
    requires code !in s0.redis && forall k: nat :: !StaleRedisFill(s0, code, k)
    ensures RedisFresh(Run(s0, actions), code, Known(s0, actions, code))
    decreases |actions|
  {
    if actions == [] {
      KnownGrows(s0, [], Tick(0), code);
      forall k | 0 <= k < |s0.requests| && s0.requests[k].FillRedis? && s0.requests[k].code == code
        ensures s0.requests[k].target in Known(s0, [], code)
      {
        assert !StaleRedisFill(s0, code, k);
      }
    } else {
      var n := |actions| - 1;
      RedisFreshUnlessStaleFill(s0, actions[..n], code);
      RedisFreshnessExtends(s0, actions[..n], actions[n], code);
      assert actions == actions[..n] + [actions[n]];
    }
  }

  lemma RedisFreshnessExtends(s0: State, earlier: seq<Action>, a: Action, code: Code)
    requires RedisFresh(Run(s0, earlier), code, Known(s0, earlier, code))
    ensures RedisFresh(Run(s0, earlier + [a]), code, Known(s0, earlier + [a], code))
  {
    RunSnoc(s0, earlier, a);
    KnownGrows(s0, earlier, a, code);
    RedisFreshStep(Run(s0, earlier), a, code, Known(s0, earlier, code));
  }

  lemma StaleFillLands(s0: State, code: Code, k: nat)
    requires StaleRedisFill(s0, code, k)
    ensures var actions := [Advance(k, NoFault)]; var s := Run(s0, actions);
      code in s.redis && !EverActive(s0, actions, code, s.redis[code])
  {
    var a := Advance(k, NoFault);
    RunSnoc(s0, [], a);
    assert [] + [a] == [a];
    forall i | 0 <= i <= 1 ensures Active(Run(s0, [a][..i]), code) == Active(s0, code) {
      assert [a][..i] == if i == 0 then [] else [a];
    }
  }

  /** The in-flight assumption is exactly what is needed: after the key is gone, every continuation keeps
      Redis free of older targets if and only if no fill with an older target is waiting to write it. */
  lemma PurgeIsFinalIff(s0: State, code: Code)
    requires code !in s0.redis
    ensures (forall actions :: code in Run(s0, actions).redis ==>
               EverActive(s0, actions, code, Run(s0, actions).redis[code]))
            <==> forall k: nat :: !StaleRedisFill(s0, code, k)
  {
    if k: nat :| StaleRedisFill(s0, code, k) {
      StaleFillLands(s0, code, k);
    } else {
      forall actions | code in Run(s0, actions).redis
        ensures EverActive(s0, actions, code, Run(s0, actions).redis[code])
      {
        RedisFreshUnlessStaleFill(s0, actions, code);
      }
    }
  }

  // ----- Disabling a code -----

  /** No edit of the run makes the code active again. */
  ghost predicate StaysDisabled(actions: seq<Action>, code: Code) {
    forall i :: 0 <= i < |actions| && actions[i].Write? && actions[i].code == code ==> !actions[i].record.active
  }

  ghost predicate Disabled(s: State, code: Code) {
    code in s.storage ==> !s.storage[code].active
  }

  lemma DisabledStep(s: State, a: Action, code: Code)
    requires Disabled(s, code) && (a.Write? && a.code == code ==> !a.record.active)
    ensures Disabled(Step(s, a), code)
  {
  }

  lemma {:induction false} DisabledForever(s: State, actions: seq<Action>, code: Code)
    requires Disabled(s, code) && StaysDisabled(actions, code)
    ensures Disabled(Run(s, actions), code)
    decreases |actions|
  {
    if actions != [] {
      var n := |actions| - 1;
      assert |actions[..n]| == n;
      DisabledForever(s, actions[..n], code);
      DisabledStep(Run(s, actions[..n]), actions[n], code);
    }
  }

  lemma NeverActive(s: State, actions: seq<Action>, code: Code, target: Target)
    requires Disabled(s, code) && StaysDisabled(actions, code)
    ensures !EverActive(s, actions, code, target)
  {
    forall i | 0 <= i <= |actions| ensures Active(Run(s, actions[..i]), code).None? {
      DisabledForever(s, actions[..i], code);
    }
  }

  /** An instance whose local tier does not have the code gets it only from targets active since. */
  lemma {:induction false} LocalFreshFromEmpty(s0: State, actions: seq<Action>, code: Code, inst: nat)
    requires Purged(s0, code) && (inst < |s0.locals| ==> code !in s0.locals[inst])
    ensures LocalFresh(Run(s0, actions), code, Known(s0, actions, code), inst)
    decreases |actions|
  {
    if actions != [] {
      var n := |actions| - 1;
      assert |actions[..n]| == n && actions == actions[..n] + [actions[n]];
      LocalFreshFromEmpty(s0, actions[..n], code, inst);
      LocalFreshExtends(s0, actions[..n], actions[n], code, inst);
    }
  }

  lemma LocalFreshExtends(s0: State, earlier: seq<Action>, a: Action, code: Code, inst: nat)
    requires Purged(s0, code) && LocalFresh(Run(s0, earlier), code, Known(s0, earlier, code), inst)
    ensures LocalFresh(Run(s0, earlier + [a]), code, Known(s0, earlier + [a], code), inst)
  {
    FreshAfterPurge(s0, earlier, code);
    RunSnoc(s0, earlier, a);
    KnownGrows(s0, earlier, a, code);
    LocalFreshStep(Run(s0, earlier), a, code, Known(s0, earlier, code), inst);
  }

  /** After an edit that disables a code, a purge that took effect and with no older fill in flight, every request is
      refused for as long as the code stays disabled: at once where the local tier does not have it, and everywhere
      30 seconds after the purge. */
  lemma DisabledCodeIsRefused(s0: State, actions: seq<Action>, slot: nat, inst: nat, code: Code)
    requires Purged(s0, code) && Disabled(s0, code) && StaysDisabled(actions, code)
    requires var s := Run(s0, actions); slot < |s.requests| && s.requests[slot].Idle? && inst < |s.locals|
    requires (inst < |s0.locals| ==> code !in s0.locals[inst]) || Run(s0, actions).now >= s0.now + 30
    ensures Refused(Uninterrupted(Run(s0, actions), slot, inst, code), slot)
  {
    var s := Run(s0, actions);
    DisabledForever(s0, actions, code);
    if code in s.redis {
      RedisIsFreshAfterPurge(s0, actions, code);
      NeverActive(s0, actions, code, s.redis[code]);
    }
    var hit := LocalHit(s.locals[inst], code, s.now);
    if hit.Some? {
      if s.now >= s0.now + 30 {
        LocalTierCatchesUp(s0, actions, code, inst);
      } else {
        LocalFreshFromEmpty(s0, actions, code, inst);
      }
      NeverActive(s0, actions, code, hit.value);
    }
    DeadCodeIsRefusedIff(s, slot, inst, code);
  }

  // ----- Cache failures -----

  /** While storage has a target, no failure of Redis, in reading or in writing, turns a request into a refusal: it
      serves what Redis has, if that can be read, and else what storage has. */
  lemma CacheFailuresAreHarmless(s: State, slot: nat, read: Fault, write: Fault)
    requires slot < |s.requests| && s.requests[slot].AskRedis? && s.requests[slot].inst < |s.locals|
    requires Active(s, s.requests[slot].code).Some?
    ensures var r := s.requests[slot];
      var s1 := Step(s, Advance(slot, read));
      var s3 := Step(Step(s1, Advance(slot, NoFault)), Advance(slot, write));
      if read == NoFault && r.code in s.redis then s1.requests[slot] == FillLocal(r.inst, r.code, s.redis[r.code])
      else
        && (s3.redis == if write.TookEffect() then s.redis[r.code := Active(s, r.code).value] else s.redis)
        && s3.requests[slot] == if write == NoFault then FillLocal(r.inst, r.code, Active(s, r.code).value)
                                else Serving(r.inst, r.code, Active(s, r.code).value)
  {
  }
}
