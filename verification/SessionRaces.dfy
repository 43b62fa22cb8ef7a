/** internal/auth/session.go with overlapping calls. Touch, Delete and DeleteAllForUser are each a read and, later,
    one transaction; other calls may come in between. */
module SessionRaces {
  import opened Basics
  import opened SessionStore

  /** A call that has read and not yet written. */
  datatype Pending =
    | TouchWrite(hash: Hash, record: Session)
    | DeleteWrite(hash: Hash, user: UserId)
    | RevokeWrite(user: UserId, members: set<Hash>)

  datatype World = World(redis: State, pending: map<nat, Pending>)

  datatype Call =
    | Login(user: UserId, token: Token, at: Time)
    | TouchRead(id: nat, token: Token, at: Time)
    | DeleteRead(id: nat, token: Token, at: Time)
    | RevokeRead(id: nat, user: UserId, at: Time)
    | Finish(id: nat, at: Time)

  function Begin(w: World, id: nat, p: Pending): World {
    if id in w.pending then w else w.(pending := w.pending[id := p])
  }

  // The transactions.

  function WriteTouch(s: State, h: Hash, rec: Session, now: Time, ttl: Ttl): State {
    var s' := s.(sessions := s.sessions[h := Keyed(rec.(lastSeenAt := now, expiresAt := now + ttl), now + ttl)]);
    match Read(s.index, rec.userId, now)
    case None => s'
    case Some(members) => s'.(index := s.index[rec.userId := Keyed(members, now + ttl)])
  }

  function WriteDelete(s: State, h: Hash, user: UserId, now: Time): State {
    var s' := s.(sessions := s.sessions - {h});
    match Read(s.index, user, now)
    case None => s'
    case Some(members) =>
      if members - {h} == {} then s'.(index := s.index - {user})
      else s'.(index := s.index[user := s.index[user].(value := members - {h})])
  }

  function Write(s: State, p: Pending, now: Time, ttl: Ttl): State {
    match p
    case TouchWrite(h, rec) => WriteTouch(s, h, rec, now, ttl)
    case DeleteWrite(h, user) => WriteDelete(s, h, user, now)
    case RevokeWrite(user, members) => State(s.sessions - members, s.index - {user})
  }

  function CallStep(w: World, c: Call, ttl: Ttl): World {
    match c
    case Login(user, token, at) => w.(redis := AfterCreate(w.redis, user, token, at, ttl))
    case TouchRead(id, token, at) =>
      var found := Find(w.redis, token, at);
      if found.Some? then Begin(w, id, TouchWrite(Sha256(token), found.value)) else w
    case DeleteRead(id, token, at) =>
      var found := Find(w.redis, token, at);
      if found.Some? then Begin(w, id, DeleteWrite(Sha256(token), found.value.userId)) else w
    case RevokeRead(id, user, at) =>
      var members := Members(w.redis, user, at);
      if members != {} then Begin(w, id, RevokeWrite(user, members)) else w
    case Finish(id, at) =>
      if id in w.pending then World(Write(w.redis, w.pending[id], at, ttl), w.pending - {id}) else w
  }

  /** A call that has read stays as it is until it writes. */
  lemma PendingStays(w: World, c: Call, id: nat, ttl: Ttl)
    requires id in w.pending && (c.Finish? ==> c.id != id)
    ensures var w' := CallStep(w, c, ttl); id in w'.pending && w'.pending[id] == w.pending[id]
  {
  }

  function CallRun(w: World, calls: seq<Call>, ttl: Ttl): World
    decreases |calls|
  {
    if calls == [] then w else CallRun(CallStep(w, calls[0], ttl), calls[1..], ttl)
  }

  /** A call nothing comes in between of does what the store's method does. */
  lemma UninterruptedCalls(w: World, id: nat, token: Token, user: UserId, at: Time, ttl: Ttl)
    requires id !in w.pending
    ensures CallStep(CallStep(w, TouchRead(id, token, at), ttl), Finish(id, at), ttl) ==
            w.(redis := AfterTouch(w.redis, token, at, ttl))
    ensures CallStep(CallStep(w, DeleteRead(id, token, at), ttl), Finish(id, at), ttl) ==
            w.(redis := AfterDelete(w.redis, token, at))
    ensures CallStep(CallStep(w, RevokeRead(id, user, at), ttl), Finish(id, at), ttl) ==
            w.(redis := AfterDeleteAll(w.redis, user, at))
  {
    assert (w.pending - {id}) == w.pending;
    assert CallStep(w, TouchRead(id, token, at), ttl).pending - {id} == w.pending;
    assert CallStep(w, DeleteRead(id, token, at), ttl).pending - {id} == w.pending;
    assert CallStep(w, RevokeRead(id, user, at), ttl).pending - {id} == w.pending;
  }

  // ----- When a deletion is final -----

  ghost predicate TouchWaits(w: World, h: Hash) {
    exists id :: id in w.pending && w.pending[id].TouchWrite? && w.pending[id].hash == h
  }

  ghost predicate Gone(w: World, h: Hash) {
    h !in w.redis.sessions && !TouchWaits(w, h)
  }

  predicate Issues(c: Call, token: Token) {
    c.Login? && c.token == token
  }

  lemma GoneStep(w: World, c: Call, token: Token, ttl: Ttl)
    requires Gone(w, Sha256(token)) && !Issues(c, token)
    ensures Gone(CallStep(w, c, ttl), Sha256(token))
  {
  }

  ghost predicate NeverIssued(calls: seq<Call>, token: Token) {
    forall i :: 0 <= i < |calls| ==> !Issues(calls[i], token)
  }

  lemma {:induction false} GoneForever(w: World, calls: seq<Call>, token: Token, ttl: Ttl)
    requires Gone(w, Sha256(token)) && NeverIssued(calls, token)
    ensures Gone(CallRun(w, calls, ttl), Sha256(token))
    decreases |calls|
  {
    if calls != [] {
      GoneStep(w, calls[0], token, ttl);
      GoneForever(CallStep(w, calls[0], ttl), calls[1..], token, ttl);
    }
  }

  lemma RunOneCall(w: World, c: Call, ttl: Ttl)
    ensures CallRun(w, [c], ttl) == CallStep(w, c, ttl)
  {
    assert [c][1..] == [];
    assert CallRun(CallStep(w, c, ttl), [], ttl) == CallStep(w, c, ttl);
  }

  /** Once a session's key is gone, no continuation brings it back if and only if no touch of it waits to write. */
  lemma DeletionIsFinalIff(w: World, token: Token, ttl: Ttl)
    requires Sha256(token) !in w.redis.sessions
    ensures (forall calls :: NeverIssued(calls, token) ==> Sha256(token) !in CallRun(w, calls, ttl).redis.sessions)
            <==> !TouchWaits(w, Sha256(token))
  {
    var h := Sha256(token);
    if TouchWaits(w, h) {
      var id :| id in w.pending && w.pending[id].TouchWrite? && w.pending[id].hash == h;
      RunOneCall(w, Finish(id, 0), ttl);
      assert NeverIssued([Finish(id, 0)], token);
    } else {
      forall calls | NeverIssued(calls, token) ensures h !in CallRun(w, calls, ttl).redis.sessions {
        GoneForever(w, calls, token, ttl);
      }
    }
  }

  // ----- When a revocation is final -----

  ghost predicate LiveFor(s: State, user: UserId, h: Hash, now: Time) {
    h in s.sessions && s.sessions[h].value.userId == user && now < s.sessions[h].deadline
  }

  ghost predicate TouchWaitsFor(w: World, user: UserId) {
    exists id :: id in w.pending && w.pending[id].TouchWrite? && w.pending[id].record.userId == user
  }

  /** The user has no session, and none on its way. */
  ghost predicate LoggedOut(w: World, user: UserId, now: Time) {
    (forall h :: !LiveFor(w.redis, user, h, now)) && !TouchWaitsFor(w, user)
  }

  predicate Ascending(calls: seq<Call>, from: Time) {
    calls == [] || (from <= calls[0].at && Ascending(calls[1..], calls[0].at))
  }

  ghost predicate NoLogin(calls: seq<Call>, user: UserId) {
    forall i :: 0 <= i < |calls| && calls[i].Login? ==> calls[i].user != user
  }

  function EndOf(calls: seq<Call>, from: Time): Time {
    if calls == [] then from else EndOf(calls[1..], calls[0].at)
  }

  lemma LoggedOutStep(w: World, c: Call, user: UserId, now: Time, ttl: Ttl)
    requires LoggedOut(w, user, now) && now <= c.at && !(c.Login? && c.user == user)
    ensures LoggedOut(CallStep(w, c, ttl), user, c.at)
  {
    forall h ensures !LiveFor(CallStep(w, c, ttl).redis, user, h, c.at) {
      assert !LiveFor(w.redis, user, h, now);
    }
    if c.TouchRead? {
      assert !LiveFor(w.redis, user, Sha256(c.token), now);
    }
  }

  lemma {:induction false} LoggedOutForever(w: World, calls: seq<Call>, user: UserId, now: Time, ttl: Ttl)
    requires LoggedOut(w, user, now) && Ascending(calls, now) && NoLogin(calls, user)
    ensures LoggedOut(CallRun(w, calls, ttl), user, EndOf(calls, now))
    decreases |calls|
  {
    if calls != [] {
      LoggedOutStep(w, calls[0], user, now, ttl);
      LoggedOutForever(CallStep(w, calls[0], ttl), calls[1..], user, calls[0].at, ttl);
    }
  }

  /** No token resolves to the user, at the end of any continuation without a login of theirs. */
  ghost predicate StaysLoggedOut(w: World, user: UserId, now: Time, ttl: Ttl) {
    forall calls, token :: Ascending(calls, now) && NoLogin(calls, user) ==>
      !Resolves(CallRun(w, calls, ttl), token, user, EndOf(calls, now))
  }

  ghost predicate Resolves(w: World, token: Token, user: UserId, now: Time) {
    Find(w.redis, token, now).Some? && Find(w.redis, token, now).value.userId == user
  }

  lemma WaitingTouchLogsIn(w: World, id: nat, user: UserId, now: Time, ttl: Ttl)
    requires id in w.pending && w.pending[id].TouchWrite? && w.pending[id].record.userId == user
    ensures !StaysLoggedOut(w, user, now, ttl)
  {
    var token, c := w.pending[id].hash.token, Finish(id, now);
    RunOneCall(w, c, ttl);
    assert [c][1..] == [];
    assert EndOf([c], now) == now && Ascending([c], now) && NoLogin([c], user);
    assert Resolves(CallRun(w, [c], ttl), token, user, now);
  }

  lemma LiveSessionResolves(w: World, h: Hash, user: UserId, now: Time, ttl: Ttl)
    requires LiveFor(w.redis, user, h, now)
    ensures !StaysLoggedOut(w, user, now, ttl)
  {
    assert CallRun(w, [], ttl) == w && EndOf([], now) == now;
    assert Ascending([], now) && NoLogin([], user) && Sha256(h.token) == h;
    assert Resolves(CallRun(w, [], ttl), h.token, user, EndOf([], now));
  }

  lemma StaysLoggedOutIff(w: World, user: UserId, now: Time, ttl: Ttl)
    ensures StaysLoggedOut(w, user, now, ttl) <==> LoggedOut(w, user, now)
  {
    if LoggedOut(w, user, now) {
      forall calls, token | Ascending(calls, now) && NoLogin(calls, user)
        ensures !Resolves(CallRun(w, calls, ttl), token, user, EndOf(calls, now))
      {
        LoggedOutForever(w, calls, user, now, ttl);
        assert !LiveFor(CallRun(w, calls, ttl).redis, user, Sha256(token), EndOf(calls, now));
      }
    } else if id :| id in w.pending && w.pending[id].TouchWrite? && w.pending[id].record.userId == user {
      WaitingTouchLogsIn(w, id, user, now, ttl);
    } else {
      var h :| LiveFor(w.redis, user, h, now);
      LiveSessionResolves(w, h, user, now, ttl);
    }
  }

  /** When the transaction of a revocation is through, the user stays logged out until the next login if and only
      if it listed every session then live, and no touch of one waits to write. */
  lemma RevocationIsFinalIff(w: World, id: nat, at: Time, ttl: Ttl)
    requires id in w.pending && w.pending[id].RevokeWrite?
    ensures var RevokeWrite(user, members) := w.pending[id];
      StaysLoggedOut(CallStep(w, Finish(id, at), ttl), user, at, ttl) <==>
        (forall h :: LiveFor(w.redis, user, h, at) ==> h in members) && !TouchWaitsFor(w, user)
  {
    var RevokeWrite(user, members) := w.pending[id];
    var w' := CallStep(w, Finish(id, at), ttl);
    StaysLoggedOutIff(w', user, at, ttl);
    assert forall h :: LiveFor(w'.redis, user, h, at) <==> LiveFor(w.redis, user, h, at) && h !in members;
    assert forall i :: i in w.pending && i != id ==> i in w'.pending && w'.pending[i] == w.pending[i];
    assert TouchWaitsFor(w', user) <==> TouchWaitsFor(w, user);
  }

  // ----- Both ways it fails -----

  const NOBODY := World(EMPTY, map[])

  lemma RunSuffix(w: World, calls: seq<Call>, n: nat, ttl: Ttl)
    requires n < |calls|
    ensures CallRun(w, calls[n..], ttl) == CallRun(CallStep(w, calls[n], ttl), calls[n + 1..], ttl)
    ensures calls[0..] == calls
  {
    assert calls[n..][1..] == calls[n + 1..];
  }

  /** A touch that straddles the revocation revives the session, unlisted, so that a second revocation misses it. */
  lemma StraddlingTouchRevives(user: UserId, token: Token, ttl: Ttl)
    ensures var calls := [Login(user, token, 0), TouchRead(0, token, 0), RevokeRead(1, user, 0), Finish(1, 0), Finish(0, 0)];
      var w := CallRun(NOBODY, calls, ttl);
      && Resolves(w, token, user, 0) && Members(w.redis, user, 0) == {}
      && AfterDeleteAll(w.redis, user, 0) == w.redis
  {
    var h, rec := Sha256(token), Session(user, 0, ttl, 0);
    var calls := [Login(user, token, 0), TouchRead(0, token, 0), RevokeRead(1, user, 0), Finish(1, 0), Finish(0, 0)];
    var listed := State(map[h := Keyed(rec, ttl)], map[user := Keyed({h}, ttl)]);
    var w1 := World(listed, map[]);
    var w2 := World(listed, map[0 := TouchWrite(h, rec)]);
    var w3 := World(listed, map[0 := TouchWrite(h, rec), 1 := RevokeWrite(user, {h})]);
    var w4 := World(EMPTY, map[0 := TouchWrite(h, rec)]);
    assert Members(EMPTY, user, 0) + {h} == {h};
    assert CallStep(NOBODY, calls[0], ttl) == w1;
    assert CallStep(w1, calls[1], ttl) == w2;
    assert CallStep(w2, calls[2], ttl) == w3;
    assert CallStep(w3, calls[3], ttl) == w4;
    RunOneCall(w4, calls[4], ttl);
    assert calls[4..] == [calls[4]];
    RunSuffix(w3, calls, 3, ttl);
    RunSuffix(w2, calls, 2, ttl);
    RunSuffix(w1, calls, 1, ttl);
    RunSuffix(NOBODY, calls, 0, ttl);
  }

  /** A login between the two halves of a revocation stays, unlisted. */
  lemma LoginBetweenStays(user: UserId, first: Token, second: Token, ttl: Ttl)
    requires first != second
    ensures var calls := [Login(user, first, 0), RevokeRead(0, user, 0), Login(user, second, 0), Finish(0, 0)];
      var w := CallRun(NOBODY, calls, ttl);
      !Resolves(w, first, user, 0) && Resolves(w, second, user, 0) && Members(w.redis, user, 0) == {}
  {
    var calls := [Login(user, first, 0), RevokeRead(0, user, 0), Login(user, second, 0), Finish(0, 0)];
    var h, h' := Sha256(first), Sha256(second);
    assert Members(EMPTY, user, 0) + {h} == {h};
    var w1 := CallStep(NOBODY, calls[0], ttl);
    var w2 := World(w1.redis, map[0 := RevokeWrite(user, {h})]);
    assert CallStep(w1, calls[1], ttl) == w2;
    var w3 := CallStep(w2, calls[2], ttl);
    RunOneCall(w3, calls[3], ttl);
    assert calls[3..] == [calls[3]];
    RunSuffix(w2, calls, 2, ttl);
    RunSuffix(w1, calls, 1, ttl);
    RunSuffix(NOBODY, calls, 0, ttl);
  }
}
