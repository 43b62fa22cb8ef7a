/** LocalAuthenticator.Login cut at its two store calls. An attempt reads the credential, compares the password,
    and only then writes the counter it read plus one; nothing orders it against other attempts on the account. */
module LoginOverlap {
  import opened Basics
  import opened Text
  import opened LocalLogin

  /** What an attempt that has compared its password is about to write, and the clock reading it goes by. */
  datatype Flight = Flight(user: UserId, failedAttempts: nat, lockedUntil: Option<Time>, at: Time)

  datatype World = World(tables: State, flights: map<nat, Flight>)

  const EMPTY_WORLD := World(State(map[], map[]), map[])

  /** Write is the attempt's second store call. One that fails before taking effect loses the failure. */
  datatype Event =
    | Compare(id: nat, email: string, password: string, at: Time)
    | Write(id: nat, fault: Fault, at: Time)
    | Reset(user: UserId, password: string, at: Time)
    | Register(email: string, user: UserId, at: Time)

  function FailureFlight(user: UserId, cred: Credential, at: Time): Flight {
    var after := WithFailure(cred, at);
    Flight(user, after.failedAttempts, after.lockedUntil, at)
  }

  function AfterCompare(w: World, id: nat, email: string, password: string, at: Time): World {
    match Target(w.tables, email, at)
    case None => w
    case Some(user) =>
      if !Writes(w.tables, email, password, at) then w
      else
        var cred := w.tables.credentials[user];
        w.(flights := w.flights[id := if cred.hash == Some(Argon2id(password)) then Flight(user, 0, None, at)
                                      else FailureFlight(user, cred, at)])
  }

  /** UPDATE ... SET failed_attempts, locked_until: the hash is left alone. */
  function WriteCounters(s: State, f: Flight): State {
    if f.user in s.credentials
    then s.(credentials := s.credentials[f.user := s.credentials[f.user].(failedAttempts := f.failedAttempts,
                                                                           lockedUntil := f.lockedUntil)])
    else s
  }

  function Step(w: World, e: Event): World {
    match e
    case Compare(id, email, password, at) => if id in w.flights then w else AfterCompare(w, id, email, password, at)
    case Write(id, fault, _) =>
      if id !in w.flights then w
      else World(if fault.TookEffect() then WriteCounters(w.tables, w.flights[id]) else w.tables, w.flights - {id})
    case Reset(user, password, at) => w.(tables := LocalLogin.Step(w.tables, LocalLogin.Reset(user, password, at)))
    case Register(email, user, at) => w.(tables := LocalLogin.Step(w.tables, LocalLogin.Register(email, user, at)))
  }

  function Run(w: World, events: seq<Event>): World
    decreases |events|
  {
    if events == [] then w else Run(Step(w, events[0]), events[1..])
  }

  /** An attempt nothing interrupts and whose write ends as `fault` says does what Authenticate does. */
  lemma UninterruptedAttempt(w: World, id: nat, email: string, password: string, at: Time, later: Time, fault: Fault)
    requires id !in w.flights
    ensures var w' := Step(Step(w, Compare(id, email, password, at)), Write(id, fault, later));
      && (id in Step(w, Compare(id, email, password, at)).flights <==> Writes(w.tables, email, password, at))
      && w'.flights == w.flights
      && w'.tables == if Writes(w.tables, email, password, at) && !fault.TookEffect() then w.tables
                      else LocalLogin.Login(w.tables, email, password, at).0
  {
    var w1 := Step(w, Compare(id, email, password, at));
    assert w1.flights - {id} == w.flights;
    if Target(w.tables, email, at).Some? && !Writes(w.tables, email, password, at) {
      var user := Target(w.tables, email, at).value;
      var cred := w.tables.credentials[user];
      assert w.tables.credentials[user := cred.(failedAttempts := 0, lockedUntil := None)] == w.tables.credentials;
    }
  }

  // ----- What is counted -----

  predicate Within(events: seq<Event>, from: Time, to: Time) {
    events == [] || (from <= events[0].at <= to && Within(events[1..], events[0].at, to))
  }

  /** A password is compared with the account's hash. */
  predicate Compares(w: World, e: Event, user: UserId) {
    e.Compare? && e.id !in w.flights && Target(w.tables, e.email, e.at) == Some(user)
  }

  function Comparisons(w: World, events: seq<Event>, user: UserId): nat
    decreases |events|
  {
    if events == [] then 0
    else (if Compares(w, events[0], user) then 1 else 0) + Comparisons(Step(w, events[0]), events[1..], user)
  }

  /** A write for the account that fails without effect. */
  predicate Loses(w: World, e: Event, user: UserId) {
    e.Write? && e.id in w.flights && w.flights[e.id].user == user && !e.fault.TookEffect()
  }

  function Lost(w: World, events: seq<Event>, user: UserId): nat
    decreases |events|
  {
    if events == [] then 0
    else (if Loses(w, events[0], user) then 1 else 0) + Lost(Step(w, events[0]), events[1..], user)
  }

  /** No password compared matches, and the account's password is not reset. */
  predicate OnlyFailures(w: World, events: seq<Event>, user: UserId)
    decreases |events|
  {
    events == [] ||
    (&& (Compares(w, events[0], user) ==> w.tables.credentials[user].hash != Some(Argon2id(events[0].password)))
     && !(events[0].Reset? && events[0].user == user && ValidPassword(events[0].password))
     && OnlyFailures(Step(w, events[0]), events[1..], user))
  }

  function FlightsOf(w: World, user: UserId): set<nat> {
    set id | id in w.flights && w.flights[id].user == user
  }

  /** Never more than c attempts on the account between their comparison and their write. */
  predicate AtMost(w: World, events: seq<Event>, user: UserId, c: nat)
    decreases |events|
  {
    |FlightsOf(w, user)| <= c && (events == [] || AtMost(Step(w, events[0]), events[1..], user, c))
  }

  // ----- Invariants over every run -----

  /** Every account is locked exactly while its counter is at the threshold or above, and every pending write
      will keep it so. */
  ghost predicate Sound(w: World) {
    && LockedIffAtThreshold(w.tables)
    && forall id :: id in w.flights ==>
         (w.flights[id].lockedUntil.Some? <==> w.flights[id].failedAttempts >= MAX_FAILED_ATTEMPTS)
  }

  lemma SoundStep(w: World, e: Event)
    requires Sound(w)
    ensures Sound(Step(w, e))
  {
  }

  lemma {:induction false} SoundAlways(w: World, events: seq<Event>)
    requires Sound(w)
    ensures Sound(Run(w, events))
    decreases |events|
  {
    if events != [] {
      SoundStep(w, events[0]);
      SoundAlways(Step(w, events[0]), events[1..]);
    }
  }

  // ----- At most one attempt in flight -----

  /** The step has nothing to do with the account's counters. */
  predicate Elsewhere(w: World, e: Event, user: UserId) {
    && !Compares(w, e, user)
    && !(e.Write? && e.id in FlightsOf(w, user))
    && !(e.Reset? && e.user == user && ValidPassword(e.password))
  }

  lemma ElsewhereKeeps(w: World, e: Event, user: UserId)
    requires Elsewhere(w, e, user)
    ensures var w' := Step(w, e);
      && (user in w'.tables.credentials <==> user in w.tables.credentials)
      && (user in w.tables.credentials ==> w'.tables.credentials[user] == w.tables.credentials[user])
      && FlightsOf(w', user) == FlightsOf(w, user)
      && forall id :: id in FlightsOf(w, user) ==> w'.flights[id] == w.flights[id]
  {
  }

  /** A failed comparison puts its write in flight. */
  lemma FailureTakesOff(w: World, e: Event, user: UserId)
    requires Compares(w, e, user) && w.tables.credentials[user].hash != Some(Argon2id(e.password))
    ensures var w' := Step(w, e);
      && w'.tables == w.tables && FlightsOf(w', user) == FlightsOf(w, user) + {e.id} && e.id !in FlightsOf(w, user)
      && w'.flights[e.id] == FailureFlight(user, w.tables.credentials[user], e.at)
  {
  }

  /** A write ends its flight, with or without effect. */
  lemma WriteLands(w: World, e: Event, user: UserId)
    requires e.Write? && e.id in FlightsOf(w, user) && user in w.tables.credentials
    ensures var w', f, cred := Step(w, e), w.flights[e.id], w.tables.credentials[user];
      && FlightsOf(w', user) == FlightsOf(w, user) - {e.id}
      && user in w'.tables.credentials
      && w'.tables.credentials[user] ==
           if e.fault.TookEffect() then cred.(failedAttempts := f.failedAttempts, lockedUntil := f.lockedUntil) else cred
  {
  }

  lemma SecondFlight(w: World, e: Event, user: UserId, id: nat)
    requires FlightsOf(w, user) == {id} && Compares(w, e, user)
    requires w.tables.credentials[user].hash != Some(Argon2id(e.password))
    ensures |FlightsOf(Step(w, e), user)| == 2
  {
    FailureTakesOff(w, e, user);
    assert |{id} + {e.id}| == 2;
  }

  /** Where one attempt is in flight and no second may join it, nothing is compared. */
  lemma NoSecondFlight(w: World, e: Event, user: UserId, id: nat)
    requires FlightsOf(w, user) == {id} && |FlightsOf(Step(w, e), user)| <= 1
    requires Compares(w, e, user) ==> w.tables.credentials[user].hash != Some(Argon2id(e.password))
    ensures !Compares(w, e, user)
  {
    if Compares(w, e, user) {
      SecondFlight(w, e, user, id);
    }
  }

  ghost predicate InTime(w: World, events: seq<Event>, user: UserId, from: Time, to: Time) {
    && Sound(w) && from <= to && Within(events, from, to)
    && OnlyFailures(w, events, user) && AtMost(w, events, user, 1)
    && user in w.tables.credentials
  }

  lemma InTimeNext(w: World, events: seq<Event>, user: UserId, from: Time, to: Time)
    requires InTime(w, events, user, from, to) && events != []
    ensures from <= events[0].at <= to && InTime(Step(w, events[0]), events[1..], user, events[0].at, to)
  {
    SoundStep(w, events[0]);
  }

  /** A lost failure gives back the one comparison it had used, and no more. */
  lemma LossGivesBackOne(cred: Credential, at: Time, now: Time, to: Time)
    requires cred.lockedUntil.Some? <==> cred.failedAttempts >= MAX_FAILED_ATTEMPTS
    requires !Locked(cred, at) && at <= now <= to
    ensures Allowance(cred, now, to) <= Allowance(WithFailure(cred, at), now, to) + 1
  {
  }

  lemma AllowanceAtMost(cred: Credential, now: Time, to: Time)
    requires (cred.lockedUntil.Some? <==> cred.failedAttempts >= MAX_FAILED_ATTEMPTS) && now <= to
    ensures Allowance(cred, now, to) <= MAX_FAILED_ATTEMPTS + (to - now) / LOCKOUT_DURATION
  {
  }

  /** With nothing in flight, an account sees what its credential allows, and one comparison more per lost failure. */
  lemma {:induction false} AllowedOnGround(w: World, events: seq<Event>, user: UserId, from: Time, to: Time)
    requires InTime(w, events, user, from, to) && FlightsOf(w, user) == {}
    ensures Comparisons(w, events, user) <= Allowance(w.tables.credentials[user], from, to) + Lost(w, events, user)
    decreases |events|
  {
    var cred := w.tables.credentials[user];
    AllowanceShrinks(cred, from, from, to);
    if events != [] {
      var e := events[0];
      InTimeNext(w, events, user, from, to);
      AllowanceShrinks(cred, from, e.at, to);
      if Compares(w, e, user) {
        FailureTakesOff(w, e, user);
        FailureUsesAllowance(cred, e.at, to);
        AllowedInFlight(Step(w, e), events[1..], user, e.id, e.at, to);
      } else {
        ElsewhereKeeps(w, e, user);
        AllowedOnGround(Step(w, e), events[1..], user, e.at, to);
      }
    }
  }

  /** The account's one flight is its credential's next failure. */
  ghost predicate Tight(w: World, user: UserId, id: nat, now: Time) {
    && user in w.tables.credentials && FlightsOf(w, user) == {id}
    && w.flights[id] == FailureFlight(user, w.tables.credentials[user], w.flights[id].at)
    && w.flights[id].at <= now && !Locked(w.tables.credentials[user], w.flights[id].at)
  }

  /** With a failure in flight, the account sees what the credential will allow once it has landed. */
  lemma {:induction false} AllowedInFlight(w: World, events: seq<Event>, user: UserId, id: nat, from: Time, to: Time)
    requires InTime(w, events, user, from, to) && Tight(w, user, id, from)
    ensures Comparisons(w, events, user)
            <= Allowance(WithFailure(w.tables.credentials[user], w.flights[id].at), from, to) + Lost(w, events, user)
    decreases |events|
  {
    var cred, at := w.tables.credentials[user], w.flights[id].at;
    var awaited := WithFailure(cred, at);
    AllowanceShrinks(awaited, from, from, to);
    if events != [] {
      var e := events[0];
      InTimeNext(w, events, user, from, to);
      AllowanceShrinks(awaited, from, e.at, to);
      NoSecondFlight(w, e, user, id);
      if e.Write? && e.id == id {
        WriteLands(w, e, user);
        LossGivesBackOne(cred, at, e.at, to);
        AllowedOnGround(Step(w, e), events[1..], user, e.at, to);
      } else {
        ElsewhereKeeps(w, e, user);
        AllowedInFlight(Step(w, e), events[1..], user, id, e.at, to);
      }
    }
  }

  /** A flight left over from before, whatever it will write. */
  lemma {:induction false} AllowedAfterLeftover(w: World, events: seq<Event>, user: UserId, id: nat, from: Time,
                                                to: Time)
    requires InTime(w, events, user, from, to) && FlightsOf(w, user) == {id}
    ensures Comparisons(w, events, user)
            <= MAX_FAILED_ATTEMPTS + (to - from) / LOCKOUT_DURATION + Lost(w, events, user)
    decreases |events|
  {
    if events != [] {
      var e := events[0];
      InTimeNext(w, events, user, from, to);
      NoSecondFlight(w, e, user, id);
      if e.Write? && e.id == id {
        WriteLands(w, e, user);
        AllowedOnGround(Step(w, e), events[1..], user, e.at, to);
        AllowanceAtMost(Step(w, e).tables.credentials[user], e.at, to);
      } else {
        ElsewhereKeeps(w, e, user);
        AllowedAfterLeftover(Step(w, e), events[1..], user, id, e.at, to);
      }
    }
  }

  lemma {:induction false} NoCredentialNoComparison(w: World, events: seq<Event>, user: UserId)
    requires user !in w.tables.credentials && OnlyFailures(w, events, user)
    ensures Comparisons(w, events, user) == 0
    decreases |events|
  {
    if events != [] {
      MissingStays(w, events[0], user);
      NoCredentialNoComparison(Step(w, events[0]), events[1..], user);
    }
  }

  lemma MissingStays(w: World, e: Event, user: UserId)
    requires user !in w.tables.credentials && !(e.Reset? && e.user == user && ValidPassword(e.password))
    ensures user !in Step(w, e).tables.credentials && !Compares(w, e, user)
  {
  }

  /** After any history, with at most one attempt on the account in flight at a time: a stretch without a matching
      password or a reset sees at most 5 + floor(length / 15 minutes) comparisons, and one more for each failure
      whose write was lost. */
  lemma LockoutBoundHolds(history: seq<Event>, events: seq<Event>, user: UserId, from: Time, to: Time)
    requires var w := Run(EMPTY_WORLD, history);
      from <= to && Within(events, from, to) && OnlyFailures(w, events, user) && AtMost(w, events, user, 1)
    ensures var w := Run(EMPTY_WORLD, history);
      Comparisons(w, events, user) <= MAX_FAILED_ATTEMPTS + (to - from) / LOCKOUT_DURATION + Lost(w, events, user)
  {
    var w := Run(EMPTY_WORLD, history);
    SoundAlways(EMPTY_WORLD, history);
    if user !in w.tables.credentials {
      NoCredentialNoComparison(w, events, user);
    } else if FlightsOf(w, user) == {} {
      AllowedOnGround(w, events, user, from, to);
      AllowanceAtMost(w.tables.credentials[user], from, to);
    } else {
      var id :| id in FlightsOf(w, user);
      assert |FlightsOf(w, user) - {id}| == 0;
      AllowedAfterLeftover(w, events, user, id, from, to);
    }
  }

  // ----- Two attempts in flight -----

  function Guess(id: nat): Event {
    Compare(id, "user", "wrong guess", 0)
  }

  function Done(id: nat): Event {
    Write(id, NoFault, 0)
  }

  /** One account that nobody has tried yet. */
  function Prelude(): seq<Event> {
    [Event.Register("user", 0, 0), Event.Reset(0, "the password", 0)]
  }

  /** A guess whose write comes before the next guess. */
  function OneByOne(rest: seq<Event>): seq<Event> {
    [Guess(0)] + ([Done(0)] + rest)
  }

  /** The first two guesses read the same counter; four more follow one by one. */
  function OverlappingGuesses(): seq<Event> {
    Together(OneByOne(OneByOne(OneByOne([Guess(0)] + []))))
  }

  function Tried(failed: nat, flights: map<nat, Flight>): World {
    World(State(map["user" := 0], map[0 := Credential(Some(Argon2id("the password")), failed, None)]), flights)
  }

  /** The write of a guess that read this counter, below the threshold. */
  function Pending(failed: nat): Flight {
    Flight(0, failed + 1, if failed + 1 >= MAX_FAILED_ATTEMPTS then Some(LOCKOUT_DURATION) else None, 0)
  }

  lemma PreludeIsTried()
    ensures Run(EMPTY_WORLD, Prelude()) == Tried(0, map[])
  {
    var events := Prelude();
    assert Fold("user") == "user";
    assert events[1..] == [events[1]] && [events[1]][1..] == [];
    var w := Step(EMPTY_WORLD, events[0]);
    assert Run(w, [events[1]]) == Run(Step(w, events[1]), []);
  }

  lemma GuessOnTried(failed: nat, flights: map<nat, Flight>, id: nat)
    requires id !in flights
    ensures var w := Tried(failed, flights);
      && Step(w, Guess(id)) == Tried(failed, flights[id := Pending(failed)])
      && Compares(w, Guess(id), 0)
      && w.tables.credentials[0].hash != Some(Argon2id("wrong guess"))
  {
    assert Fold("user") == "user";
  }

  lemma DoneOnTried(failed: nat, flights: map<nat, Flight>, id: nat, read: nat)
    requires id in flights && flights[id] == Pending(read) && read + 1 < MAX_FAILED_ATTEMPTS
    ensures Step(Tried(failed, flights), Done(id)) == Tried(read + 1, flights - {id})
  {
  }

  /** From here the events compare `n` passwords at one moment, none of which matches, two at most in flight. */
  ghost predicate ComparesAtOnce(w: World, events: seq<Event>, n: nat) {
    && Within(events, 0, 0) && OnlyFailures(w, events, 0) && AtMost(w, events, 0, 2)
    && Comparisons(w, events, 0) == n && Lost(w, events, 0) == 0
  }

  lemma FlightsOnTried(failed: nat, flights: map<nat, Flight>)
    requires forall id :: id in flights ==> flights[id].user == 0
    ensures FlightsOf(Tried(failed, flights), 0) == flights.Keys
  {
  }

  lemma GuessFirst(failed: nat, flights: map<nat, Flight>, id: nat, rest: seq<Event>, n: nat)
    requires id !in flights && |flights| <= 2 && forall i :: i in flights ==> flights[i].user == 0
    requires ComparesAtOnce(Tried(failed, flights[id := Pending(failed)]), rest, n)
    ensures ComparesAtOnce(Tried(failed, flights), [Guess(id)] + rest, n + 1)
  {
    GuessOnTried(failed, flights, id);
    FlightsOnTried(failed, flights);
    assert ([Guess(id)] + rest)[1..] == rest;
  }

  lemma DoneFirst(failed: nat, flights: map<nat, Flight>, id: nat, read: nat, rest: seq<Event>, n: nat)
    requires id in flights && flights[id] == Pending(read) && read + 1 < MAX_FAILED_ATTEMPTS
    requires |flights| <= 2 && forall i :: i in flights ==> flights[i].user == 0
    requires ComparesAtOnce(Tried(read + 1, flights - {id}), rest, n)
    ensures ComparesAtOnce(Tried(failed, flights), [Done(id)] + rest, n)
  {
    DoneOnTried(failed, flights, id, read);
    FlightsOnTried(failed, flights);
    assert ([Done(id)] + rest)[1..] == rest;
  }

  lemma OneByOneFirst(failed: nat, rest: seq<Event>, n: nat)
    requires failed + 1 < MAX_FAILED_ATTEMPTS && ComparesAtOnce(Tried(failed + 1, map[]), rest, n)
    ensures ComparesAtOnce(Tried(failed, map[]), OneByOne(rest), n + 1)
  {
    var none: map<nat, Flight> := map[];
    var one := none[0 := Pending(failed)];
    assert one - {0} == none;
    DoneFirst(failed, one, 0, failed, rest, n);
    GuessFirst(failed, none, 0, [Done(0)] + rest, n);
  }

  lemma LastGuess(failed: nat)
    ensures ComparesAtOnce(Tried(failed, map[]), [Guess(0)] + [], 1)
  {
    var none: map<nat, Flight> := map[];
    FlightsOnTried(failed, none[0 := Pending(failed)]);
    GuessFirst(failed, none, 0, [], 0);
  }

  /** Two guesses that read the same counter use up one failure between them. */
  function Together(rest: seq<Event>): seq<Event> {
    [Guess(0)] + ([Guess(1)] + ([Done(0)] + ([Done(1)] + rest)))
  }

  function BothPending(): map<nat, Flight> {
    map[0 := Pending(0), 1 := Pending(0)]
  }

  lemma GuessTwice(rest: seq<Event>, n: nat)
    requires ComparesAtOnce(Tried(0, BothPending()), rest, n)
    ensures ComparesAtOnce(Tried(0, map[]), [Guess(0)] + ([Guess(1)] + rest), n + 2)
  {
    var first := map[0 := Pending(0)];
    assert first[1 := Pending(0)] == BothPending();
    GuessFirst(0, first, 1, rest, n);
    var none: map<nat, Flight> := map[];
    assert none[0 := Pending(0)] == first;
    GuessFirst(0, none, 0, [Guess(1)] + rest, n + 1);
  }

  lemma SecondDone(rest: seq<Event>, n: nat)
    requires ComparesAtOnce(Tried(1, map[]), rest, n)
    ensures ComparesAtOnce(Tried(1, map[1 := Pending(0)]), [Done(1)] + rest, n)
  {
    var second := map[1 := Pending(0)];
    assert second - {1} == map[];
    DoneFirst(1, second, 1, 0, rest, n);
  }

  lemma DoneTwice(rest: seq<Event>, n: nat)
    requires ComparesAtOnce(Tried(1, map[]), rest, n)
    ensures ComparesAtOnce(Tried(0, BothPending()), [Done(0)] + ([Done(1)] + rest), n)
  {
    SecondDone(rest, n);
    BothWithoutFirst();
    DoneFirst(0, BothPending(), 0, 0, [Done(1)] + rest, n);
  }

  lemma BothWithoutFirst()
    ensures BothPending() - {0} == map[1 := Pending(0)] && |BothPending()| == 2
  {
    assert BothPending().Keys == {0, 1};
  }

  lemma TogetherFirst(rest: seq<Event>, n: nat)
    requires ComparesAtOnce(Tried(1, map[]), rest, n)
    ensures ComparesAtOnce(Tried(0, map[]), Together(rest), n + 2)
  {
    DoneTwice(rest, n);
    GuessTwice([Done(0)] + ([Done(1)] + rest), n);
  }

  /** Two attempts overlap once, and six passwords are compared at one moment. */
  lemma SixAtOnce()
    ensures ComparesAtOnce(Run(EMPTY_WORLD, Prelude()), OverlappingGuesses(), MAX_FAILED_ATTEMPTS + 1)
  {
    PreludeIsTried();
    LastGuess(4);
    OneByOneFirst(3, [Guess(0)] + [], 1);
    OneByOneFirst(2, OneByOne([Guess(0)] + []), 2);
    OneByOneFirst(1, OneByOne(OneByOne([Guess(0)] + [])), 3);
    TogetherFirst(OneByOne(OneByOne(OneByOne([Guess(0)] + []))), 4);
  }

  // ----- The exact condition -----

  lemma {:induction false} AtMostMore(w: World, events: seq<Event>, user: UserId, c: nat, d: nat)
    requires AtMost(w, events, user, c) && c <= d
    ensures AtMost(w, events, user, d)
    decreases |events|
  {
    if events != [] {
      AtMostMore(Step(w, events[0]), events[1..], user, c, d);
    }
  }

  /** A stretch of time without a matching password or a reset, and at most c attempts on the account in flight. */
  ghost predicate StretchAfter(history: seq<Event>, events: seq<Event>, user: UserId, from: Time, to: Time, c: nat) {
    var w := Run(EMPTY_WORLD, history);
    from <= to && Within(events, from, to) && OnlyFailures(w, events, user) && AtMost(w, events, user, c)
  }

  ghost predicate Bounded(w: World, events: seq<Event>, user: UserId, from: Time, to: Time)
    requires from <= to
  {
    Comparisons(w, events, user) <= MAX_FAILED_ATTEMPTS + (to - from) / LOCKOUT_DURATION + Lost(w, events, user)
  }

  ghost predicate BoundHolds(c: nat) {
    forall history, events, user, from, to :: StretchAfter(history, events, user, from, to, c) ==>
      Bounded(Run(EMPTY_WORLD, history), events, user, from, to)
  }

  /** With at most c attempts on one account in flight, the lockout bound holds on all runs if and only if c <= 1.
      Nothing in the service enforces that. */
  lemma LockoutBoundIff(c: nat)
    ensures BoundHolds(c) <==> c <= 1
  {
    if c <= 1 {
      forall history, events, user, from, to | StretchAfter(history, events, user, from, to, c)
        ensures Bounded(Run(EMPTY_WORLD, history), events, user, from, to)
      {
        AtMostMore(Run(EMPTY_WORLD, history), events, user, c, 1);
        LockoutBoundHolds(history, events, user, from, to);
      }
    } else {
      SixAtOnce();
      AtMostMore(Run(EMPTY_WORLD, Prelude()), OverlappingGuesses(), 0, 2, c);
      assert StretchAfter(Prelude(), OverlappingGuesses(), 0, 0, 0, c);
    }
  }

  // ----- Without a limit on overlapping attempts there is no bound at all -----

  /** Guesses from the k-th to the c-th, none of which writes. */
  function Guesses(k: nat, c: nat): seq<Event>
    requires k <= c
    decreases c - k
  {
    if k == c then [] else [Guess(k)] + Guesses(k + 1, c)
  }

  function PendingGuesses(k: nat): map<nat, Flight> {
    if k == 0 then map[] else PendingGuesses(k - 1)[k - 1 := Pending(0)]
  }

  lemma {:induction false} GuessesAllCompared(k: nat, c: nat)
    requires k <= c
    ensures var w, events := Tried(0, PendingGuesses(k)), Guesses(k, c);
      && Within(events, 0, 0) && OnlyFailures(w, events, 0) && AtMost(w, events, 0, c)
      && Comparisons(w, events, 0) == c - k && Lost(w, events, 0) == 0
    decreases c - k
  {
    PendingCount(k);
    FlightsOnTried(0, PendingGuesses(k));
    if k < c {
      GuessOnTried(0, PendingGuesses(k), k);
      assert Guesses(k, c)[1..] == Guesses(k + 1, c);
      GuessesAllCompared(k + 1, c);
    }
  }

  lemma {:induction false} PendingCount(k: nat)
    ensures |PendingGuesses(k)| == k
    ensures forall id :: id in PendingGuesses(k) ==> id < k && PendingGuesses(k)[id].user == 0
    decreases k
  {
    if k > 0 {
      PendingCount(k - 1);
      assert PendingGuesses(k).Keys == PendingGuesses(k - 1).Keys + {k - 1};
    }
  }

  /** For every c there is a run in which c attempts overlap and all c passwords are compared at one moment. */
  lemma OverlappingAttemptsAllCompared(c: nat)
    ensures var w, events := Run(EMPTY_WORLD, Prelude()), Guesses(0, c);
      && Within(events, 0, 0) && OnlyFailures(w, events, 0) && AtMost(w, events, 0, c)
      && Comparisons(w, events, 0) == c && Lost(w, events, 0) == 0
  {
    PreludeIsTried();
    assert PendingGuesses(0) == map[];
    GuessesAllCompared(0, c);
  }
}
