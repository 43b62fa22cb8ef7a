/** internal/auth/session.go: sessions in Redis with a sliding TTL, and a per-user index of them that expires
    on its own. Each store method is one atomic step at one clock reading; a key set with a TTL is readable
    strictly before its deadline. */
module SessionStore {
  import opened Basics

  type UserId = nat
  type Time = int
  type Token = string

  /** A lifetime in seconds. To Redis a lifetime of zero would mean none at all. */
  type Ttl = t: int | t > 0 witness 1

  /** SHA-256, taken to be injective. */
  datatype Hash = Sha256(token: Token)

  datatype Session = Session(userId: UserId, createdAt: Time, expiresAt: Time, lastSeenAt: Time)

  /** A Redis value with its deadline. An expired key stays in the map but reads as absent. */
  datatype Keyed<T> = Keyed(value: T, deadline: Time)

  datatype State = State(
    sessions: map<Hash, Keyed<Session>>,
    index: map<UserId, Keyed<set<Hash>>>)

  const EMPTY := State(map[], map[])

  function Read<K, V>(m: map<K, Keyed<V>>, key: K, now: Time): Option<V> {
    if key in m && now < m[key].deadline then Some(m[key].value) else None
  }

  /** The members SMEMBERS returns: an absent set has none. */
  function Members(s: State, user: UserId, now: Time): set<Hash> {
    match Read(s.index, user, now)
    case Some(members) => members
    case None => {}
  }

  function Find(s: State, token: Token, now: Time): Option<Session> {
    Read(s.sessions, Sha256(token), now)
  }

  // What each store method leaves in Redis.

  function AfterCreate(s: State, user: UserId, token: Token, now: Time, ttl: Ttl): State {
    State(s.sessions[Sha256(token) := Keyed(Session(user, now, now + ttl, now), now + ttl)],
          s.index[user := Keyed(Members(s, user, now) + {Sha256(token)}, now + ttl)])
  }

  function AfterTouch(s: State, token: Token, now: Time, ttl: Ttl): State {
    match Find(s, token, now)
    case None => s
    case Some(rec) =>
      var touched := Keyed(rec.(lastSeenAt := now, expiresAt := now + ttl), now + ttl);
      var s' := s.(sessions := s.sessions[Sha256(token) := touched]);
      match Read(s.index, rec.userId, now)
      case None => s'
      case Some(members) => s'.(index := s.index[rec.userId := Keyed(members, now + ttl)])
  }

  function AfterDelete(s: State, token: Token, now: Time): State {
    match Find(s, token, now)
    case None => s
    case Some(rec) =>
      var s' := s.(sessions := s.sessions - {Sha256(token)});
      match Read(s.index, rec.userId, now)
      case None => s'
      case Some(members) =>
        if members - {Sha256(token)} == {} then s'.(index := s.index - {rec.userId})
        else s'.(index := s.index[rec.userId := s.index[rec.userId].(value := members - {Sha256(token)})])
  }

  function AfterDeleteAll(s: State, user: UserId, now: Time): State {
    var members := Members(s, user, now);
    if members == {} then s else State(s.sessions - members, s.index - {user})
  }

  class RedisSessionStore {
    var sessions: map<Hash, Keyed<Session>>
    var index: map<UserId, Keyed<set<Hash>>>

    constructor ()
      ensures Contents() == EMPTY
    {
      sessions, index := map[], map[];
    }

    function Contents(): State
      reads this
    {
      State(sessions, index)
    }

    method Create(user: UserId, token: Token, now: Time, ttl: Ttl)
      modifies this
      ensures Contents() == AfterCreate(old(Contents()), user, token, now, ttl)
    {
      var members := Members(Contents(), user, now);
      sessions := sessions[Sha256(token) := Keyed(Session(user, now, now + ttl, now), now + ttl)];
      index := index[user := Keyed(members + {Sha256(token)}, now + ttl)];
    }

    method Lookup(token: Token, now: Time) returns (r: Option<Session>)
      ensures r == Find(Contents(), token, now)
    {
      r := Read(sessions, Sha256(token), now);
    }

    method Touch(token: Token, now: Time, ttl: Ttl) returns (found: bool)
      modifies this
      ensures found <==> Find(old(Contents()), token, now).Some?
      ensures Contents() == AfterTouch(old(Contents()), token, now, ttl)
    {
      var r := Lookup(token, now);
      found := r.Some?;
      if found {
        var rec := r.value.(lastSeenAt := now, expiresAt := now + ttl);
        sessions := sessions[Sha256(token) := Keyed(rec, now + ttl)];
        var members := Read(index, rec.userId, now);
        if members.Some? {
          index := index[rec.userId := Keyed(members.value, now + ttl)];
        }
      }
    }

    method Delete(token: Token, now: Time)
      modifies this
      ensures Contents() == AfterDelete(old(Contents()), token, now)
    {
      var r := Lookup(token, now);
      if r.Some? {
        var user := r.value.userId;
        sessions := sessions - {Sha256(token)};
        var members := Read(index, user, now);
        if members.Some? {
          if members.value - {Sha256(token)} == {} {
            index := index - {user};
          } else {
            index := index[user := Keyed(members.value - {Sha256(token)}, index[user].deadline)];
          }
        }
      }
    }

    /** Collects the listed keys one by one, then deletes them and the index together. */
    method DeleteAllForUser(user: UserId, now: Time)
      modifies this
      ensures Contents() == AfterDeleteAll(old(Contents()), user, now)
    {
      var hashes := Members(Contents(), user, now);
      if hashes == {} {
        return;
      }
      var keys: seq<Hash> := [];
      var rest := hashes;
      while rest != {}
        invariant rest + (set h | h in keys) == hashes
        decreases rest
      {
        var h :| h in rest;
        keys := keys + [h];
        rest := rest - {h};
      }
      sessions := sessions - (set h | h in keys);
      index := index - {user};
    }
  }

  // ----- Histories -----

  datatype Op =
    | Create(user: UserId, token: Token)
    | Touch(token: Token)
    | Delete(token: Token)
    | DeleteAll(user: UserId)

  datatype Event = Event(at: Time, op: Op)

  function Step(s: State, e: Event, ttl: Ttl): State {
    match e.op
    case Create(user, token) => AfterCreate(s, user, token, e.at, ttl)
    case Touch(token) => AfterTouch(s, token, e.at, ttl)
    case Delete(token) => AfterDelete(s, token, e.at)
    case DeleteAll(user) => AfterDeleteAll(s, user, e.at)
  }

  function Run(events: seq<Event>, ttl: Ttl): State {
    if events == [] then EMPTY
    else Step(Run(events[..|events| - 1], ttl), events[|events| - 1], ttl)
  }

  /** The clock never runs back, and every Create draws a new token. */
  ghost predicate WellFormed(events: seq<Event>) {
    && (forall i, j :: 0 <= i < j < |events| ==> events[i].at <= events[j].at)
    && (forall i, j :: 0 <= i < j < |events| && events[i].op.Create? && events[j].op.Create? ==>
          events[i].op.token != events[j].op.token)
  }

  /** Who a token was issued to. */
  function Owner(events: seq<Event>, token: Token): Option<UserId> {
    if events == [] then None
    else
      var e := events[|events| - 1];
      if e.op.Create? && e.op.token == token then Some(e.op.user)
      else Owner(events[..|events| - 1], token)
  }

  lemma {:induction false} OwnerIsCreator(events: seq<Event>, token: Token)
    ensures Owner(events, token).Some? <==>
              exists i :: 0 <= i < |events| && events[i].op.Create? && events[i].op.token == token
    ensures WellFormed(events) ==>
              forall i :: 0 <= i < |events| && events[i].op.Create? && events[i].op.token == token ==>
                Owner(events, token) == Some(events[i].op.user)
  {
    if events != [] {
      var n := |events| - 1;
      OwnerIsCreator(events[..n], token);
      if events[n].op.Create? && events[n].op.token == token {
        assert events[n].op.Create? && events[n].op.token == token;
      } else if Owner(events[..n], token).Some? {
        var i :| 0 <= i < n && events[..n][i].op.Create? && events[..n][i].op.token == token;
        assert events[i].op.Create? && events[i].op.token == token;
      }
    }
  }

  // ----- The index is complete -----

  /** Every live session is listed in its user's live index, which outlives it; a listed or stored token
      was issued to the user it is filed under. */
  ghost predicate Inv(s: State, events: seq<Event>, now: Time, ttl: Ttl) {
    && (forall h :: h in s.sessions ==> Owner(events, h.token) == Some(s.sessions[h].value.userId))
    && (forall h :: h in s.sessions ==> s.sessions[h].deadline <= now + ttl)
    && (forall h :: h in s.sessions ==> s.sessions[h].value.expiresAt == s.sessions[h].deadline)
    && (forall u, h :: u in s.index && h in s.index[u].value ==> Owner(events, h.token) == Some(u))
    && (forall h :: h in s.sessions && now < s.sessions[h].deadline ==> Listed(s, h))
  }

  ghost predicate Listed(s: State, h: Hash)
    requires h in s.sessions
  {
    var u := s.sessions[h].value.userId;
    u in s.index && h in s.index[u].value && s.sessions[h].deadline <= s.index[u].deadline
  }

  lemma InvLater(s: State, events: seq<Event>, now: Time, later: Time, ttl: Ttl)
    requires Inv(s, events, now, ttl) && now <= later
    ensures Inv(s, events, later, ttl)
  {
  }

  /** A token not yet created is nowhere, so Create disturbs no other entry. */
  lemma InvCreate(s: State, events: seq<Event>, e: Event, ttl: Ttl)
    requires Inv(s, events, e.at, ttl) && e.op.Create? && Owner(events, e.op.token).None?
    ensures Inv(Step(s, e, ttl), events + [e], e.at, ttl)
  {
    var s' := Step(s, e, ttl);
    assert (events + [e])[..|events|] == events;
    assert forall h :: h in s.sessions ==> h != Sha256(e.op.token);
    forall h | h in s'.sessions && e.at < s'.sessions[h].deadline ensures Listed(s', h) {
      if h != Sha256(e.op.token) {
        assert Listed(s, h);
      }
    }
  }

  lemma InvTouch(s: State, events: seq<Event>, e: Event, ttl: Ttl)
    requires Inv(s, events, e.at, ttl) && e.op.Touch?
    ensures Inv(Step(s, e, ttl), events + [e], e.at, ttl)
  {
    var s' := Step(s, e, ttl);
    assert (events + [e])[..|events|] == events;
    if Find(s, e.op.token, e.at).Some? {
      assert Listed(s, Sha256(e.op.token));
    }
    forall h | h in s'.sessions && e.at < s'.sessions[h].deadline ensures Listed(s', h) {
      assert Listed(s, h);
    }
  }

  lemma InvDelete(s: State, events: seq<Event>, e: Event, ttl: Ttl)
    requires Inv(s, events, e.at, ttl) && e.op.Delete?
    ensures Inv(Step(s, e, ttl), events + [e], e.at, ttl)
  {
    var s' := Step(s, e, ttl);
    assert (events + [e])[..|events|] == events;
    forall h | h in s'.sessions && e.at < s'.sessions[h].deadline ensures Listed(s', h) {
      assert Listed(s, h);
    }
  }

  lemma InvDeleteAll(s: State, events: seq<Event>, e: Event, ttl: Ttl)
    requires Inv(s, events, e.at, ttl) && e.op.DeleteAll?
    ensures Inv(Step(s, e, ttl), events + [e], e.at, ttl)
  {
    var s' := Step(s, e, ttl);
    assert (events + [e])[..|events|] == events;
    forall h | h in s'.sessions && e.at < s'.sessions[h].deadline ensures Listed(s', h) {
      assert Listed(s, h);
    }
  }

  lemma InvStep(s: State, events: seq<Event>, e: Event, ttl: Ttl)
    requires Inv(s, events, e.at, ttl) && WellFormed(events + [e])
    ensures Inv(Step(s, e, ttl), events + [e], e.at, ttl)
  {
    match e.op
    case Create(_, token) =>
      OwnerIsCreator(events, token);
      assert forall i :: 0 <= i < |events| ==> (events + [e])[i] == events[i];
      assert (events + [e])[|events|] == e;
      InvCreate(s, events, e, ttl);
    case Touch(_) => InvTouch(s, events, e, ttl);
    case Delete(_) => InvDelete(s, events, e, ttl);
    case DeleteAll(_) => InvDeleteAll(s, events, e, ttl);
  }

  lemma {:induction false} InvRun(events: seq<Event>, now: Time, ttl: Ttl)
    requires WellFormed(events) && (events != [] ==> events[|events| - 1].at <= now)
    ensures Inv(Run(events, ttl), events, now, ttl)
    decreases |events|
  {
    if events != [] {
      var n := |events| - 1;
      assert |events[..n]| == n && events == events[..n] + [events[n]];
      InvRun(events[..n], events[n].at, ttl);
      InvStep(Run(events[..n], ttl), events[..n], events[n], ttl);
      InvLater(Run(events, ttl), events, events[n].at, now, ttl);
    }
  }

  /** Index completeness: with one ttl and a monotone clock, whoever can still log in with a token is found
      by SMEMBERS on its owner's index, now and for as long as the session lasts. */
  lemma LiveSessionIsListed(events: seq<Event>, ttl: Ttl, now: Time, token: Token)
    requires WellFormed(events) && (events != [] ==> events[|events| - 1].at <= now)
    requires Find(Run(events, ttl), token, now).Some?
    ensures var s := Run(events, ttl); var user := Find(s, token, now).value.userId;
      && Owner(events, token) == Some(user)
      && forall later :: now <= later && Find(s, token, later).Some? ==> Sha256(token) in Members(s, user, later)
  {
    InvRun(events, now, ttl);
    assert Listed(Run(events, ttl), Sha256(token));
  }

  /** Revocation is complete and precise: afterwards no token of the user resolves, at any later time, and
      every other user's token resolves exactly as before. */
  lemma DeleteAllRevokesExactly(events: seq<Event>, ttl: Ttl, user: UserId, now: Time, token: Token, later: Time)
    requires WellFormed(events) && (events != [] ==> events[|events| - 1].at <= now) && now <= later
    ensures var s := Run(events, ttl); var s' := Run(events + [Event(now, DeleteAll(user))], ttl);
      Find(s', token, later) == if Owner(events, token) == Some(user) then None else Find(s, token, later)
  {
    var s := Run(events, ttl);
    InvRun(events, now, ttl);
    assert (events + [Event(now, DeleteAll(user))])[..|events|] == events;
    if Find(s, token, later).Some? {
      assert Listed(s, Sha256(token));
    }
  }

  // ----- More than one lifetime -----

  /** A run in which every event comes with its own lifetime, as when the setting changes between deployments. */
  function RunWith(events: seq<Event>, ttls: seq<Ttl>): State
    requires |events| == |ttls|
  {
    if events == [] then EMPTY
    else
      var n := |events| - 1;
      Step(RunWith(events[..n], ttls[..n]), events[n], ttls[n])
  }

  lemma {:induction false} SameTtlThroughout(events: seq<Event>, ttls: seq<Ttl>, ttl: Ttl)
    requires |events| == |ttls| && forall t :: t in ttls ==> t == ttl
    ensures RunWith(events, ttls) == Run(events, ttl)
    decreases |events|
  {
    if events != [] {
      var n := |events| - 1;
      assert ttls == ttls[..n] + [ttls[n]];
      forall t | t in ttls[..n] ensures t == ttl {
        assert t in ttls;
      }
      SameTtlThroughout(events[..n], ttls[..n], ttl);
      assert ttls[n] in ttls;
    }
  }

  /** Whoever can log in with the token is listed, and loses it when all sessions of the user are revoked. */
  ghost predicate Revocable(s: State, token: Token, now: Time) {
    Find(s, token, now).Some? ==>
      var user := Find(s, token, now).value.userId;
      Sha256(token) in Members(s, user, now) && Find(AfterDeleteAll(s, user, now), token, now).None?
  }

  ghost predicate AlwaysRevocable(a: Ttl, b: Ttl) {
    forall events: seq<Event>, ttls: seq<Ttl>, token, now ::
      WellFormed(events) && |events| == |ttls| && (forall t :: t in ttls ==> t == a || t == b)
      && (events != [] ==> events[|events| - 1].at <= now) ==>
        Revocable(RunWith(events, ttls), token, now)
  }

  /** A second login with a shorter lifetime cuts the index short under the first session. */
  function TwoLogins(): seq<Event> {
    [Event(0, Create(7, "first")), Event(0, Create(7, "second"))]
  }

  /** From the moment the index has expired until the first session does, revoking all sessions misses it. */
  lemma MixedTtlsLoseSessions(long: Ttl, short: Ttl, now: Time)
    requires short <= now < long
    ensures WellFormed(TwoLogins()) && !Revocable(RunWith(TwoLogins(), [long, short]), "first", now)
  {
    var events, ttls: seq<Ttl> := TwoLogins(), [long, short];
    assert events[..1] == [events[0]] && ttls[..1] == [long] && events[..1][..0] == [] && ttls[..1][..0] == [];
    assert RunWith(events[..1], ttls[..1]) == AfterCreate(EMPTY, 7, "first", 0, long);
    assert Sha256("first") != Sha256("second");
  }

  lemma InvRevocable(s: State, events: seq<Event>, token: Token, now: Time, ttl: Ttl)
    requires Inv(s, events, now, ttl)
    ensures Revocable(s, token, now)
  {
    if Find(s, token, now).Some? {
      assert Listed(s, Sha256(token));
    }
  }

  /** For two lifetimes that may alternate, every run keeps every live session listed and revocable if and only if
      they are the same. */
  lemma AlwaysRevocableIff(a: Ttl, b: Ttl)
    ensures AlwaysRevocable(a, b) <==> a == b
  {
    if a == b {
      forall events: seq<Event>, ttls: seq<Ttl>, token, now |
        WellFormed(events) && |events| == |ttls| && (forall t :: t in ttls ==> t == a || t == b)
        && (events != [] ==> events[|events| - 1].at <= now)
        ensures Revocable(RunWith(events, ttls), token, now)
      {
        SameTtlThroughout(events, ttls, a);
        InvRun(events, now, a);
        InvRevocable(Run(events, a), events, token, now, a);
      }
    } else {
      var long, short := if a > b then a else b, if a > b then b else a;
      var ttls: seq<Ttl> := [long, short];
      MixedTtlsLoseSessions(long, short, short);
      assert TwoLogins()[|TwoLogins()| - 1].at <= short;
      assert forall t :: t in ttls ==> t == a || t == b;
    }
  }

  ghost predicate NeverShrinking(ttls: seq<Ttl>) {
    forall i, j :: 0 <= i < j < |ttls| ==> ttls[i] <= ttls[j]
  }

  lemma InvLonger(s: State, events: seq<Event>, now: Time, ttl: Ttl, longer: Ttl)
    requires Inv(s, events, now, ttl) && ttl <= longer
    ensures Inv(s, events, now, longer)
  {
  }

  lemma PrefixNeverShrinks(ttls: seq<Ttl>)
    requires NeverShrinking(ttls) && ttls != []
    ensures var earlier := ttls[..|ttls| - 1];
      NeverShrinking(earlier) && (earlier != [] ==> earlier[|earlier| - 1] <= ttls[|ttls| - 1])
  {
  }

  lemma {:induction false} InvRunWith(events: seq<Event>, ttls: seq<Ttl>, now: Time, ttl: Ttl)
    requires WellFormed(events) && |events| == |ttls| && (events != [] ==> events[|events| - 1].at <= now)
    requires NeverShrinking(ttls) && (ttls != [] ==> ttls[|ttls| - 1] <= ttl)
    ensures Inv(RunWith(events, ttls), events, now, ttl)
    decreases |events|
  {
    if events != [] {
      var n := |events| - 1;
      assert |events[..n]| == n;
      PrefixNeverShrinks(ttls);
      InvRunWith(events[..n], ttls[..n], events[n].at, ttls[n]);
      InvLast(events, ttls, now, ttl);
    }
  }

  lemma InvLast(events: seq<Event>, ttls: seq<Ttl>, now: Time, ttl: Ttl)
    requires WellFormed(events) && |events| == |ttls| > 0 && events[|events| - 1].at <= now && ttls[|ttls| - 1] <= ttl
    requires var n := |events| - 1; Inv(RunWith(events[..n], ttls[..n]), events[..n], events[n].at, ttls[n])
    ensures Inv(RunWith(events, ttls), events, now, ttl)
  {
    var n := |events| - 1;
    assert events == events[..n] + [events[n]];
    InvNext(RunWith(events[..n], ttls[..n]), events[..n], events[n], ttls[n], now, ttl);
  }

  lemma InvNext(s: State, events: seq<Event>, e: Event, ttl: Ttl, now: Time, longer: Ttl)
    requires Inv(s, events, e.at, ttl) && WellFormed(events + [e]) && e.at <= now && ttl <= longer
    ensures Inv(Step(s, e, ttl), events + [e], now, longer)
  {
    InvStep(s, events, e, ttl);
    InvLater(Step(s, e, ttl), events + [e], e.at, now, ttl);
    InvLonger(Step(s, e, ttl), events + [e], now, ttl, longer);
  }

  /** Lifetimes that never shrink along a run keep every live session listed and revocable. */
  lemma NeverShrinkingIsSafe(events: seq<Event>, ttls: seq<Ttl>, token: Token, now: Time)
    requires WellFormed(events) && |events| == |ttls| && (events != [] ==> events[|events| - 1].at <= now)
    requires NeverShrinking(ttls)
    ensures Revocable(RunWith(events, ttls), token, now)
  {
    var ttl: Ttl := if ttls == [] then 1 else ttls[|ttls| - 1];
    InvRunWith(events, ttls, now, ttl);
    InvRevocable(RunWith(events, ttls), events, token, now, ttl);
  }

  /** A run whose first n events use lifetime a and all later ones b, as when a deployment changes the setting. */
  function Switched(a: Ttl, b: Ttl, n: nat, m: nat): seq<Ttl> {
    seq(n, _ => a) + seq(m, _ => b)
  }

  ghost predicate SwitchIsSafe(a: Ttl, b: Ttl) {
    forall events: seq<Event>, n: nat, m: nat, token, now ::
      WellFormed(events) && |events| == |Switched(a, b, n, m)| && (events != [] ==> events[|events| - 1].at <= now) ==>
        Revocable(RunWith(events, Switched(a, b, n, m)), token, now)
  }

  /** Changing the lifetime from a to b keeps every run safe if and only if it does not get shorter. */
  lemma SwitchIsSafeIff(a: Ttl, b: Ttl)
    ensures SwitchIsSafe(a, b) <==> a <= b
  {
    if a <= b {
      forall events: seq<Event>, n: nat, m: nat, token, now |
        WellFormed(events) && |events| == |Switched(a, b, n, m)| && (events != [] ==> events[|events| - 1].at <= now)
        ensures Revocable(RunWith(events, Switched(a, b, n, m)), token, now)
      {
        NeverShrinkingIsSafe(events, Switched(a, b, n, m), token, now);
      }
    } else {
      MixedTtlsLoseSessions(a, b, b);
      assert Switched(a, b, 1, 1) == [a, b];
      assert TwoLogins()[|TwoLogins()| - 1].at <= b;
    }
  }

  // ----- The sliding window -----

  predicate Revokes(e: Event, events: seq<Event>, token: Token) {
    match e.op
    case Delete(t) => t == token
    case DeleteAll(user) => Owner(events, token) == Some(user)
    case _ => false
  }

  predicate Renews(e: Event, token: Token) {
    e.op.Touch? && e.op.token == token
  }

  /** `chain` picks the token's Create and some later touches of it, each less than ttl after the one before,
      with nothing after the Create revoking the token. */
  ghost predicate Chain(events: seq<Event>, chain: seq<nat>, token: Token, ttl: Ttl) {
    && chain != []
    && (forall k :: 0 <= k < |chain| ==> chain[k] < |events|)
    && (forall k :: 0 < k < |chain| ==> chain[k - 1] < chain[k])
    && events[chain[0]].op.Create? && events[chain[0]].op.token == token
    && (forall k :: 0 < k < |chain| ==> Renews(events[chain[k]], token))
    && (forall k :: 0 < k < |chain| ==> events[chain[k]].at - events[chain[k - 1]].at < ttl)
    && (forall i :: chain[0] < i < |events| ==> !Revokes(events[i], events, token))
  }

  /** Such a chain whose last link is less than ttl before now. */
  ghost predicate KeepsAlive(events: seq<Event>, chain: seq<nat>, token: Token, ttl: Ttl, now: Time) {
    Chain(events, chain, token, ttl) && now - events[chain[|chain| - 1]].at < ttl
  }

  /** The moment a token was last renewed, if nothing has ended it. */
  function LastRenewal(events: seq<Event>, token: Token, ttl: Ttl): Option<Time> {
    if events == [] then None
    else
      var n := |events| - 1;
      var e := events[n];
      var before := LastRenewal(events[..n], token, ttl);
      if e.op.Create? && e.op.token == token then Some(e.at)
      else if Revokes(e, events[..n], token) then None
      else if Renews(e, token) && before.Some? && e.at - before.value < ttl then Some(e.at)
      else before
  }

  /** What Redis holds for a token is its last renewal plus ttl. */
  ghost predicate Tracks(s: State, events: seq<Event>, token: Token, ttl: Ttl, now: Time) {
    var h := Sha256(token);
    var last := LastRenewal(events, token, ttl);
    && (h in s.sessions && now < s.sessions[h].deadline ==> last == Some(s.sessions[h].deadline - ttl))
    && (last.Some? && now < last.value + ttl ==> h in s.sessions && s.sessions[h].deadline == last.value + ttl)
  }

  lemma {:induction false} TracksRun(events: seq<Event>, token: Token, ttl: Ttl, now: Time)
    requires WellFormed(events) && (events != [] ==> events[|events| - 1].at <= now)
    ensures Tracks(Run(events, ttl), events, token, ttl, now)
  {
    if events != [] {
      var n := |events| - 1;
      var e := events[n];
      TracksRun(events[..n], token, ttl, e.at);
      InvRun(events[..n], e.at, ttl);
      TracksStep(Run(events[..n], ttl), events[..n], e, token, ttl);
      assert events[..n] + [e] == events;
    }
  }

  lemma TracksStep(s: State, events: seq<Event>, e: Event, token: Token, ttl: Ttl)
    requires Inv(s, events, e.at, ttl) && Tracks(s, events, token, ttl, e.at)
    ensures Tracks(Step(s, e, ttl), events + [e], token, ttl, e.at)
  {
    assert (events + [e])[..|events|] == events;
    var h := Sha256(token);
    if h in s.sessions && e.at < s.sessions[h].deadline {
      assert Listed(s, h);
    }
  }

  lemma OwnerOfPrefix(events: seq<Event>, n: nat, token: Token)
    requires WellFormed(events) && n <= |events| && Owner(events[..n], token).Some?
    ensures Owner(events, token) == Owner(events[..n], token)
  {
    OwnerIsCreator(events, token);
    OwnerIsCreator(events[..n], token);
    var i :| 0 <= i < n && events[..n][i].op.Create? && events[..n][i].op.token == token;
    assert events[i].op.Create? && events[i].op.token == token;
  }

  lemma CreatedMeansOwned(events: seq<Event>, i: nat, n: nat, token: Token)
    requires WellFormed(events) && i < n <= |events| && events[i].op.Create? && events[i].op.token == token
    ensures Owner(events[..n], token).Some? && Owner(events, token) == Owner(events[..n], token)
  {
    OwnerIsCreator(events[..n], token);
    assert events[..n][i].op.Create? && events[..n][i].op.token == token;
    OwnerOfPrefix(events, n, token);
  }

  /** Links of a chain grow, so only the last can be the newest event. */
  lemma {:induction false} ChainBounds(events: seq<Event>, chain: seq<nat>, token: Token, ttl: Ttl)
    requires Chain(events, chain, token, ttl)
    ensures forall k :: 0 <= k < |chain| - 1 ==> chain[k] < chain[|chain| - 1]
    decreases |chain|
  {
    var m := |chain| - 1;
    if m > 0 {
      ChainBounds(events, chain[..m], token, ttl);
      assert forall k :: 0 <= k < m - 1 ==> chain[..m][k] < chain[..m][m - 1];
    }
  }

  lemma ChainOfLonger(events: seq<Event>, n: nat, chain: seq<nat>, token: Token, ttl: Ttl)
    requires WellFormed(events) && n < |events| && n + 1 == |events|
    requires Chain(events[..n], chain, token, ttl) && !Revokes(events[n], events[..n], token)
    ensures Chain(events, chain, token, ttl)
  {
    CreatedMeansOwned(events, chain[0], n, token);
    forall i | chain[0] < i < |events| ensures !Revokes(events[i], events, token) {
      if i < n {
        assert !Revokes(events[..n][i], events[..n], token);
      }
    }
  }

  lemma ChainOfShorter(events: seq<Event>, n: nat, chain: seq<nat>, token: Token, ttl: Ttl)
    requires WellFormed(events) && n <= |events|
    requires Chain(events, chain, token, ttl) && forall k :: 0 <= k < |chain| ==> chain[k] < n
    ensures Chain(events[..n], chain, token, ttl)
  {
    CreatedMeansOwned(events, chain[0], n, token);
    forall i | chain[0] < i < n ensures !Revokes(events[..n][i], events[..n], token) {
      assert !Revokes(events[i], events, token);
    }
  }

  lemma ChainGrows(events: seq<Event>, chain: seq<nat>, i: nat, token: Token, ttl: Ttl)
    requires Chain(events, chain, token, ttl) && chain[|chain| - 1] < i < |events|
    requires Renews(events[i], token) && events[i].at - events[chain[|chain| - 1]].at < ttl
    ensures Chain(events, chain + [i], token, ttl)
  {
    var longer := chain + [i];
    assert forall k :: 0 <= k < |chain| ==> longer[k] == chain[k];
  }

  lemma ChainDropsLast(events: seq<Event>, chain: seq<nat>, token: Token, ttl: Ttl)
    requires Chain(events, chain, token, ttl) && |chain| > 1
    ensures Chain(events, chain[..|chain| - 1], token, ttl)
  {
  }

  /** The newest event, if it neither creates nor revokes the token. */
  lemma RenewalStep(events: seq<Event>, token: Token, ttl: Ttl)
    requires events != []
    ensures var n := |events| - 1; var e := events[n];
      var before := LastRenewal(events[..n], token, ttl); var after := LastRenewal(events, token, ttl);
      && (e.op.Create? && e.op.token == token ==> after == Some(e.at))
      && (!(e.op.Create? && e.op.token == token) && after.Some? ==> !Revokes(e, events[..n], token) && before.Some?)
      && (!(e.op.Create? && e.op.token == token) && !Revokes(e, events[..n], token) ==>
            after == if Renews(e, token) && before.Some? && e.at - before.value < ttl then Some(e.at) else before)
  {
  }

  lemma {:induction false} ChainFromRenewal(events: seq<Event>, token: Token, ttl: Ttl) returns (chain: seq<nat>)
    requires WellFormed(events) && LastRenewal(events, token, ttl).Some?
    ensures Chain(events, chain, token, ttl)
    ensures events[chain[|chain| - 1]].at == LastRenewal(events, token, ttl).value
    decreases |events|
  {
    assert events != [];
    var n := |events| - 1;
    var e := events[n];
    RenewalStep(events, token, ttl);
    if e.op.Create? && e.op.token == token {
      chain := [n];
    } else {
      var before := LastRenewal(events[..n], token, ttl);
      chain := ChainFromRenewal(events[..n], token, ttl);
      ChainOfLonger(events, n, chain, token, ttl);
      if Renews(e, token) && e.at - before.value < ttl {
        ChainGrows(events, chain, n, token, ttl);
        chain := chain + [n];
      }
    }
  }

  lemma {:induction false} RenewalFromChain(events: seq<Event>, chain: seq<nat>, token: Token, ttl: Ttl)
    requires WellFormed(events) && Chain(events, chain, token, ttl)
    ensures LastRenewal(events, token, ttl).Some?
    ensures events[chain[|chain| - 1]].at <= LastRenewal(events, token, ttl).value <= events[|events| - 1].at
    decreases |events|
  {
    var n, m := |events| - 1, |chain| - 1;
    RenewalStep(events, token, ttl);
    if chain[0] != n {
      ChainBounds(events, chain, token, ttl);
      var shorter := chain;
      if chain[m] == n {
        ChainDropsLast(events, chain, token, ttl);
        shorter := chain[..m];
        assert events[chain[m]].at - events[chain[m - 1]].at < ttl;
      }
      ChainOfShorter(events, n, shorter, token, ttl);
      RenewalFromChain(events[..n], shorter, token, ttl);
      NewestDoesNotEnd(events, chain, token, ttl);
    }
  }

  lemma NewestDoesNotEnd(events: seq<Event>, chain: seq<nat>, token: Token, ttl: Ttl)
    requires WellFormed(events) && Chain(events, chain, token, ttl) && chain[0] < |events| - 1
    ensures var e := events[|events| - 1];
      !(e.op.Create? && e.op.token == token) && !Revokes(e, events[..|events| - 1], token)
  {
    CreatedMeansOwned(events, chain[0], |events| - 1, token);
    assert !Revokes(events[|events| - 1], events, token);
  }

  /** The sliding window: a token resolves if and only if the history holds its Create and an unbroken chain
      of touches up to now with no gap of ttl, and no revocation after the Create; and then it resolves to
      the user it was issued to. */
  lemma FindIffKeptAlive(events: seq<Event>, ttl: Ttl, token: Token, now: Time)
    requires WellFormed(events) && (events != [] ==> events[|events| - 1].at <= now)
    ensures Find(Run(events, ttl), token, now).Some? <==> exists chain :: KeepsAlive(events, chain, token, ttl, now)
    ensures Find(Run(events, ttl), token, now).Some? ==>
              Owner(events, token) == Some(Find(Run(events, ttl), token, now).value.userId)
  {
    TracksRun(events, token, ttl, now);
    InvRun(events, now, ttl);
    if Find(Run(events, ttl), token, now).Some? {
      var chain := ChainFromRenewal(events, token, ttl);
      assert KeepsAlive(events, chain, token, ttl, now);
    }
    if chain :| KeepsAlive(events, chain, token, ttl, now) {
      RenewalFromChain(events, chain, token, ttl);
    }
  }

  // ----- What a session says, and what a deletion leaves -----

  ghost predicate CreatedBy(events: seq<Event>, token: Token, user: UserId, at: Time) {
    exists i :: 0 <= i < |events| && events[i] == Event(at, Create(user, token))
  }

  /** Every stored session tells when and for whom it was created, and that it expires one lifetime after it was last
      seen, which is when Redis drops it. */
  ghost predicate RecordsTell(s: State, events: seq<Event>, ttl: Ttl) {
    forall h :: h in s.sessions ==>
      var session := s.sessions[h].value;
      && CreatedBy(events, h.token, session.userId, session.createdAt)
      && session.expiresAt == session.lastSeenAt + ttl && session.expiresAt == s.sessions[h].deadline
  }

  lemma CreatedByLater(events: seq<Event>, e: Event, token: Token, user: UserId, at: Time)
    requires CreatedBy(events, token, user, at) || e == Event(at, Create(user, token))
    ensures CreatedBy(events + [e], token, user, at)
  {
    if i :| 0 <= i < |events| && events[i] == Event(at, Create(user, token)) {
      assert (events + [e])[i] == events[i];
    } else {
      assert (events + [e])[|events|] == e;
    }
  }

  lemma RecordsTellStep(s: State, events: seq<Event>, e: Event, ttl: Ttl)
    requires RecordsTell(s, events, ttl)
    ensures RecordsTell(Step(s, e, ttl), events + [e], ttl)
  {
    var s' := Step(s, e, ttl);
    forall h | h in s'.sessions
      ensures CreatedBy(events + [e], h.token, s'.sessions[h].value.userId, s'.sessions[h].value.createdAt)
    {
      CreatedByLater(events, e, h.token, s'.sessions[h].value.userId, s'.sessions[h].value.createdAt);
    }
  }

  lemma {:induction false} RecordsAlwaysTell(events: seq<Event>, ttl: Ttl)
    ensures RecordsTell(Run(events, ttl), events, ttl)
    decreases |events|
  {
    if events != [] {
      var n := |events| - 1;
      assert |events[..n]| == n && events == events[..n] + [events[n]];
      RecordsAlwaysTell(events[..n], ttl);
      RecordsTellStep(Run(events[..n], ttl), events[..n], events[n], ttl);
    }
  }

  /** The session a token resolves to names the user and the moment of its Create, was last seen at its last renewal,
      and expires one lifetime after that. */
  lemma FindTells(events: seq<Event>, ttl: Ttl, token: Token, now: Time)
    requires WellFormed(events) && (events != [] ==> events[|events| - 1].at <= now)
    requires Find(Run(events, ttl), token, now).Some?
    ensures var session := Find(Run(events, ttl), token, now).value;
      && CreatedBy(events, token, session.userId, session.createdAt)
      && LastRenewal(events, token, ttl) == Some(session.lastSeenAt)
      && session.expiresAt == session.lastSeenAt + ttl
  {
    RecordsAlwaysTell(events, ttl);
    TracksRun(events, token, ttl, now);
  }

  /** Deleting a live session takes its token out of the store and out of its user's index, and leaves every other
      session and index entry as it was, at every later time. */
  lemma DeleteTakesOutOne(s: State, token: Token, now: Time, other: Token, user: UserId, later: Time)
    requires Find(s, token, now).Some? && now <= later
    ensures var s' := AfterDelete(s, token, now); var owner := Find(s, token, now).value.userId;
      && Find(s', token, later).None?
      && (other != token ==> Find(s', other, later) == Find(s, other, later))
      && Members(s', user, later) ==
           if user == owner then Members(s, user, later) - {Sha256(token)} else Members(s, user, later)
  {
  }
}
