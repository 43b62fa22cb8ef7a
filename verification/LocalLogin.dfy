/** internal/auth/local.go: password login with a failed-attempt counter and a lock deadline. The runs here take
    attempts one after another; LoginOverlap cuts each attempt at its two store calls. */
module LocalLogin {
  import opened Basics
  import opened Text

  type UserId = nat

  /** Seconds. */
  type Time = int

  const MAX_FAILED_ATTEMPTS := 5
  const LOCKOUT_DURATION := 900
  const MIN_PASSWORD_LENGTH := 8

  /** argon2id: a password matches a hash exactly when the hash was made from it. */
  datatype PasswordHash = Argon2id(password: string)

  datatype Credential = Credential(hash: Option<PasswordHash>, failedAttempts: nat, lockedUntil: Option<Time>)

  datatype LoginResult = LoggedIn(user: UserId) | InvalidCredentials | AccountLocked | StoreFailed

  /** `emails` is the users table by folded email. */
  datatype State = State(emails: map<string, UserId>, credentials: map<UserId, Credential>)

  predicate Locked(cred: Credential, now: Time) {
    cred.lockedUntil.Some? && now < cred.lockedUntil.value
  }

  function WithFailure(cred: Credential, now: Time): Credential {
    var attempts := cred.failedAttempts + 1;
    cred.(failedAttempts := attempts,
          lockedUntil := if attempts >= MAX_FAILED_ATTEMPTS then Some(now + LOCKOUT_DURATION) else None)
  }

  /** The account whose password an attempt is really compared with. */
  function Target(s: State, email: string, now: Time): Option<UserId> {
    if Fold(email) !in s.emails then None
    else
      var user := s.emails[Fold(email)];
      if user !in s.credentials || s.credentials[user].hash.None? || Locked(s.credentials[user], now) then None
      else Some(user)
  }

  function Login(s: State, email: string, password: string, now: Time): (State, LoginResult) {
    match Target(s, email, now)
    case None =>
      (s, if Fold(email) in s.emails && s.emails[Fold(email)] in s.credentials
             && s.credentials[s.emails[Fold(email)]].hash.Some? then AccountLocked else InvalidCredentials)
    case Some(user) =>
      var cred := s.credentials[user];
      if cred.hash == Some(Argon2id(password)) then
        (s.(credentials := s.credentials[user := cred.(failedAttempts := 0, lockedUntil := None)]), LoggedIn(user))
      else
        (s.(credentials := s.credentials[user := WithFailure(cred, now)]), InvalidCredentials)
  }

  /** Whether an attempt ends in a write: a failure is recorded, a success only clears what there is to clear. */
  predicate Writes(s: State, email: string, password: string, now: Time) {
    var target := Target(s, email, now);
    target.Some? &&
    var cred := s.credentials[target.value];
    cred.hash != Some(Argon2id(password)) || cred.failedAttempts > 0 || cred.lockedUntil.Some?
  }

  // ----- What an attempt answers and leaves, from the credential -----

  /** `user` is the email's account, its password is the one presented, and it is not locked. */
  ghost predicate Admissible(s: State, email: string, password: string, now: Time, user: UserId) {
    && Fold(email) in s.emails && s.emails[Fold(email)] == user && user in s.credentials
    && s.credentials[user].hash == Some(Argon2id(password))
    && (s.credentials[user].lockedUntil.Some? ==> s.credentials[user].lockedUntil.value <= now)
  }

  /** The email's account has a password, and its deadline is still to come. */
  ghost predicate LockedOut(s: State, email: string, now: Time) {
    && Fold(email) in s.emails
    && var user := s.emails[Fold(email)];
       && user in s.credentials && s.credentials[user].hash.Some?
       && s.credentials[user].lockedUntil.Some? && now < s.credentials[user].lockedUntil.value
  }

  /** The email's account has another password, and is not locked. */
  ghost predicate Mistaken(s: State, email: string, password: string, now: Time, user: UserId) {
    && Fold(email) in s.emails && s.emails[Fold(email)] == user && user in s.credentials
    && s.credentials[user].hash.Some? && s.credentials[user].hash.value.password != password
    && (s.credentials[user].lockedUntil.Some? ==> s.credentials[user].lockedUntil.value <= now)
  }

  /** An attempt enters exactly the email's unlocked account with the right password, is told of a lock exactly while
      there is one, whatever the password, and is refused otherwise. */
  lemma LoginAnswers(s: State, email: string, password: string, now: Time)
    ensures var r := Login(s, email, password, now).1;
      && (forall user :: r == LoggedIn(user) <==> Admissible(s, email, password, now, user))
      && (r == AccountLocked <==> LockedOut(s, email, now))
      && (r == InvalidCredentials <==>
            !LockedOut(s, email, now) && forall user :: !Admissible(s, email, password, now, user))
  {
  }

  /** A success clears the account's counter and deadline, a wrong password counts one failure more and at the fifth
      and later ones locks for 15 minutes, and nothing else about anybody changes. */
  lemma LoginLeaves(s: State, email: string, password: string, now: Time)
    ensures var s' := Login(s, email, password, now).0;
      && s'.emails == s.emails && s'.credentials.Keys == s.credentials.Keys
      && forall user :: user in s.credentials ==>
           var before, after := s.credentials[user], s'.credentials[user];
           if Admissible(s, email, password, now, user) then after == Credential(before.hash, 0, None)
           else if Mistaken(s, email, password, now, user) then
             && after.hash == before.hash && after.failedAttempts == before.failedAttempts + 1
             && after.lockedUntil == if before.failedAttempts >= 4 then Some(now + 15 * 60) else None
           else after == before
  {
  }

  /** An attempt ends in a write exactly if it is mistaken, or enters with something to clear. */
  lemma WritesIff(s: State, email: string, password: string, now: Time)
    ensures Writes(s, email, password, now) <==>
              || (exists user :: Mistaken(s, email, password, now, user))
              || (exists user :: Admissible(s, email, password, now, user)
                    && (s.credentials[user].failedAttempts > 0 || s.credentials[user].lockedUntil.Some?))
  {
    if Target(s, email, now).Some? {
      var user := Target(s, email, now).value;
      assert Mistaken(s, email, password, now, user) || Admissible(s, email, password, now, user);
    }
  }

  predicate ValidPassword(password: string) {
    |password| >= MIN_PASSWORD_LENGTH
  }

  function SetPassword(s: State, user: UserId, hash: PasswordHash): State {
    s.(credentials := s.credentials[user := Credential(Some(hash), 0, None)])
  }

  /** A new password works at once, even on a locked account, and no other does. */
  lemma NewPasswordWorks(s: State, user: UserId, chosen: string, email: string, password: string, now: Time)
    requires Fold(email) in s.emails && s.emails[Fold(email)] == user
    ensures var s' := SetPassword(s, user, Argon2id(chosen));
      && (Login(s', email, password, now).1 == LoggedIn(user) <==> password == chosen)
      && s'.emails == s.emails
      && forall other :: other != user ==>
           && (other in s'.credentials <==> other in s.credentials)
           && (other in s.credentials ==> s'.credentials[other] == s.credentials[other])
  {
  }

  class LocalAuthenticator {
    var emails: map<string, UserId>
    var credentials: map<UserId, Credential>

    constructor ()
      ensures Tables() == State(map[], map[])
    {
      emails, credentials := map[], map[];
    }

    function Tables(): State
      reads this
    {
      State(emails, credentials)
    }

    /** `fault` says how the attempt's one write ends. If it fails the attempt does, even with the right password. */
    method Authenticate(email: string, password: string, now: Time, fault: Fault) returns (r: LoginResult)
      modifies this
      ensures r.LoggedIn? ==> Admissible(old(Tables()), email, password, now, r.user)
      ensures forall user ::
                (&& Admissible(old(Tables()), email, password, now, user)
                 && old(credentials)[user].failedAttempts == 0 && old(credentials)[user].lockedUntil.None?) ==>
                  r == LoggedIn(user)
      ensures fault == NoFault ==>
                && (forall user :: r == LoggedIn(user) <==> Admissible(old(Tables()), email, password, now, user))
                && (r == AccountLocked <==> LockedOut(old(Tables()), email, now))
                && r != StoreFailed
      ensures Writes(old(Tables()), email, password, now) ==>
                && Tables() == (if fault.TookEffect() then Login(old(Tables()), email, password, now).0 else old(Tables()))
                && r == (if fault == NoFault then Login(old(Tables()), email, password, now).1 else StoreFailed)
      ensures !Writes(old(Tables()), email, password, now) ==>
                (Tables(), r) == Login(old(Tables()), email, password, now)
    {
      if Fold(email) !in emails {
        return InvalidCredentials;
      }
      var user := emails[Fold(email)];
      if user !in credentials || credentials[user].hash.None? {
        return InvalidCredentials;
      }
      var cred := credentials[user];
      if Locked(cred, now) {
        return AccountLocked;
      }
      if cred.hash != Some(Argon2id(password)) {
        var attempts := cred.failedAttempts + 1;
        var lockedUntil: Option<Time> := None;
        if attempts >= MAX_FAILED_ATTEMPTS {
          lockedUntil := Some(now + LOCKOUT_DURATION);
        }
        if fault.TookEffect() {
          credentials := credentials[user := Credential(cred.hash, attempts, lockedUntil)];
        }
        return if fault == NoFault then InvalidCredentials else StoreFailed;
      }
      if cred.failedAttempts > 0 || cred.lockedUntil.Some? {
        if fault.TookEffect() {
          credentials := credentials[user := Credential(cred.hash, 0, None)];
        }
        return if fault == NoFault then LoggedIn(user) else StoreFailed;
      }
      assert credentials == credentials[user := Credential(cred.hash, 0, None)];
      return LoggedIn(user);
    }

    method ChangePassword(user: UserId, password: string) returns (ok: bool)
      modifies this
      ensures ok <==> |password| >= MIN_PASSWORD_LENGTH
      ensures Tables() == if ok then SetPassword(old(Tables()), user, Argon2id(password)) else old(Tables())
    {
      ok := ValidPassword(password);
      if ok {
        credentials := credentials[user := Credential(Some(Argon2id(password)), 0, None)];
      }
    }
  }

  // ----- Runs -----

  datatype Event =
    | Attempt(email: string, password: string, at: Time)
    | Reset(user: UserId, password: string, at: Time)
    | Register(email: string, user: UserId, at: Time)

  function Step(s: State, e: Event): State {
    match e
    case Attempt(email, password, at) => Login(s, email, password, at).0
    case Reset(user, password, _) => if ValidPassword(password) then SetPassword(s, user, Argon2id(password)) else s
    case Register(email, user, _) => if Fold(email) in s.emails then s else s.(emails := s.emails[Fold(email) := user])
  }

  function Run(s: State, events: seq<Event>): State
    decreases |events|
  {
    if events == [] then s else Run(Step(s, events[0]), events[1..])
  }

  lemma {:induction false} RunSnoc(s: State, events: seq<Event>, e: Event)
    ensures Run(s, []) == s && Run(s, events + [e]) == Step(Run(s, events), e)
    decreases |events|
  {
    if events == [] {
      assert [e][1..] == [] && [] + [e] == [e];
    } else {
      assert (events + [e])[1..] == events[1..] + [e];
      RunSnoc(Step(s, events[0]), events[1..], e);
    }
  }

  /** An email stays its account's on every run. */
  lemma {:induction false} EmailsAreNotReassigned(s: State, events: seq<Event>, email: string)
    requires Fold(email) in s.emails
    ensures Fold(email) in Run(s, events).emails && Run(s, events).emails[Fold(email)] == s.emails[Fold(email)]
    decreases |events|
  {
    if events != [] {
      EmailsAreNotReassigned(Step(s, events[0]), events[1..], email);
    }
  }

  /** Every account is locked exactly while its counter is at the threshold or above. */
  ghost predicate LockedIffAtThreshold(s: State) {
    forall u :: u in s.credentials ==>
      (s.credentials[u].lockedUntil.Some? <==> s.credentials[u].failedAttempts >= MAX_FAILED_ATTEMPTS)
  }

  lemma {:induction false} LockedIffAtThresholdAlways(s: State, events: seq<Event>)
    requires LockedIffAtThreshold(s)
    ensures LockedIffAtThreshold(Run(s, events))
    decreases |events|
  {
    if events != [] {
      LockedIffAtThresholdAlways(Step(s, events[0]), events[1..]);
    }
  }

  /** Events in time order, from one moment to another. */
  predicate Within(events: seq<Event>, from: Time, to: Time) {
    events == [] || (from <= events[0].at <= to && Within(events[1..], events[0].at, to))
  }

  predicate Compares(s: State, e: Event, user: UserId) {
    e.Attempt? && Target(s, e.email, e.at) == Some(user)
  }

  /** Passwords really compared with the account's hash. */
  function Comparisons(s: State, events: seq<Event>, user: UserId): nat
    decreases |events|
  {
    if events == [] then 0
    else (if Compares(s, events[0], user) then 1 else 0) + Comparisons(Step(s, events[0]), events[1..], user)
  }

  /** Nobody logs in to the account, and its password is not reset. */
  predicate OnlyFailures(s: State, events: seq<Event>, user: UserId)
    decreases |events|
  {
    events == [] ||
    (!(events[0].Attempt? && Login(s, events[0].email, events[0].password, events[0].at).1 == LoggedIn(user))
     && !(events[0].Reset? && events[0].user == user && ValidPassword(events[0].password))
     && OnlyFailures(Step(s, events[0]), events[1..], user))
  }

  /** How many comparisons the account can still see by `to`. */
  function Allowance(cred: Credential, now: Time, to: Time): int
    requires cred.lockedUntil.Some? <==> cred.failedAttempts >= MAX_FAILED_ATTEMPTS
  {
    if cred.failedAttempts < MAX_FAILED_ATTEMPTS then
      if now > to then 0 else MAX_FAILED_ATTEMPTS - cred.failedAttempts + (to - now) / LOCKOUT_DURATION
    else
      var start := if now < cred.lockedUntil.value then cred.lockedUntil.value else now;
      if start > to then 0 else 1 + (to - start) / LOCKOUT_DURATION
  }

  /** Once locked, attempts get through at most once per lockout period. */
  lemma FailureUsesAllowance(cred: Credential, now: Time, to: Time)
    requires cred.lockedUntil.Some? <==> cred.failedAttempts >= MAX_FAILED_ATTEMPTS
    requires now <= to && !Locked(cred, now)
    ensures Allowance(WithFailure(cred, now), now, to) + 1 <= Allowance(cred, now, to)
  {
  }

  lemma AllowanceShrinks(cred: Credential, now: Time, later: Time, to: Time)
    requires cred.lockedUntil.Some? <==> cred.failedAttempts >= MAX_FAILED_ATTEMPTS
    requires now <= later
    ensures 0 <= Allowance(cred, later, to) <= Allowance(cred, now, to)
  {
  }

  lemma {:induction false} ComparisonsWithinAllowance(s: State, events: seq<Event>, user: UserId, from: Time, to: Time)
    requires LockedIffAtThreshold(s) && Within(events, from, to) && OnlyFailures(s, events, user)
    requires user in s.credentials
    ensures Comparisons(s, events, user) <= Allowance(s.credentials[user], from, to)
    decreases |events|
  {
    var cred := s.credentials[user];
    AllowanceShrinks(cred, from, from, to);
    if events != [] {
      var e := events[0];
      var s' := Step(s, e);
      AllowanceShrinks(cred, from, e.at, to);
      ComparisonsWithinAllowance(s', events[1..], user, e.at, to);
      if Compares(s, e, user) {
        FailureUsesAllowance(cred, e.at, to);
        assert s'.credentials[user] == WithFailure(cred, e.at);
      } else {
        assert s'.credentials[user] == cred;
      }
    }
  }

  lemma {:induction false} NoCredentialNoComparison(s: State, events: seq<Event>, user: UserId)
    requires user !in s.credentials && OnlyFailures(s, events, user)
    ensures Comparisons(s, events, user) == 0
    decreases |events|
  {
    if events != [] {
      NoCredentialNoComparison(Step(s, events[0]), events[1..], user);
    }
  }

  /** After any history, any stretch of time without a successful login or password reset sees at most
      5 + floor(length / 15 minutes) passwords compared with an account's hash, whatever happens to others. */
  lemma LockoutBound(history: seq<Event>, events: seq<Event>, user: UserId, from: Time, to: Time)
    requires from <= to && Within(events, from, to)
    requires OnlyFailures(Run(State(map[], map[]), history), events, user)
    ensures Comparisons(Run(State(map[], map[]), history), events, user)
            <= MAX_FAILED_ATTEMPTS + (to - from) / LOCKOUT_DURATION
  {
    var s := Run(State(map[], map[]), history);
    LockedIffAtThresholdAlways(State(map[], map[]), history);
    if user in s.credentials {
      ComparisonsWithinAllowance(s, events, user, from, to);
    } else {
      NoCredentialNoComparison(s, events, user);
    }
  }

  // ----- The bound is reached -----

  /** `n` wrong guesses, each as soon as the account takes it: five at once, then one a lockout period. */
  function Schedule(at: Time, failed: nat, n: nat): seq<Event>
    decreases n
  {
    if n == 0 then []
    else
      var next := if failed + 1 >= MAX_FAILED_ATTEMPTS then at + LOCKOUT_DURATION else at;
      [Attempt("user", "wrong guess", at)] + Schedule(next, failed + 1, n - 1)
  }

  /** Lockout periods the schedule spans. */
  function Waits(failed: nat, n: nat): nat {
    if n == 0 then 0
    else if failed >= MAX_FAILED_ATTEMPTS then n - 1
    else if n <= MAX_FAILED_ATTEMPTS - failed then 0
    else n - (MAX_FAILED_ATTEMPTS - failed)
  }

  function Account(failed: nat, lockedUntil: Option<Time>): State {
    State(map["user" := 0], map[0 := Credential(Some(Argon2id("the password")), failed, lockedUntil)])
  }

  lemma {:induction false} ScheduleWithin(at: Time, failed: nat, n: nat)
    ensures Within(Schedule(at, failed, n), at, at + Waits(failed, n) * LOCKOUT_DURATION)
    decreases n
  {
    if n > 0 {
      var next := if failed + 1 >= MAX_FAILED_ATTEMPTS then at + LOCKOUT_DURATION else at;
      assert Schedule(at, failed, n)[1..] == Schedule(next, failed + 1, n - 1);
      ScheduleWithin(next, failed + 1, n - 1);
      WithinStarts(Schedule(next, failed + 1, n - 1), next, at, at + Waits(failed, n) * LOCKOUT_DURATION);
    }
  }

  lemma {:induction false} ScheduleIsCompared(at: Time, failed: nat, lockedUntil: Option<Time>, n: nat)
    requires !Locked(Credential(None, failed, lockedUntil), at)
    ensures var s := Account(failed, lockedUntil); var events := Schedule(at, failed, n);
      Comparisons(s, events, 0) == n && OnlyFailures(s, events, 0)
    decreases n
  {
    if n > 0 {
      var cred := WithFailure(Account(failed, lockedUntil).credentials[0], at);
      FailureOnAccount(at, failed, lockedUntil);
      var next := if failed + 1 >= MAX_FAILED_ATTEMPTS then at + LOCKOUT_DURATION else at;
      assert Schedule(at, failed, n)[1..] == Schedule(next, failed + 1, n - 1);
      ScheduleIsCompared(next, failed + 1, cred.lockedUntil, n - 1);
    }
  }

  lemma FailureOnAccount(at: Time, failed: nat, lockedUntil: Option<Time>)
    requires !Locked(Credential(None, failed, lockedUntil), at)
    ensures var s, a := Account(failed, lockedUntil), Attempt("user", "wrong guess", at);
      var cred := WithFailure(s.credentials[0], at);
      && Step(s, a) == Account(cred.failedAttempts, cred.lockedUntil) && Compares(s, a, 0)
      && Login(s, a.email, a.password, a.at).1 == InvalidCredentials
  {
    assert Fold("user") == "user";
  }

  lemma WithinStarts(events: seq<Event>, from: Time, earlier: Time, to: Time)
    requires Within(events, from, to) && earlier <= from
    ensures Within(events, earlier, to)
  {
  }

  /** For every number of lockout periods there is a run of failures that meets the bound exactly. */
  lemma LockoutBoundIsReached(periods: nat)
    ensures var s := Account(0, None); var events := Schedule(0, 0, MAX_FAILED_ATTEMPTS + periods);
      var span := periods * LOCKOUT_DURATION;
      && Within(events, 0, span) && OnlyFailures(s, events, 0)
      && Comparisons(s, events, 0) == MAX_FAILED_ATTEMPTS + span / LOCKOUT_DURATION
  {
    ScheduleIsCompared(0, 0, None, MAX_FAILED_ATTEMPTS + periods);
    ScheduleWithin(0, 0, MAX_FAILED_ATTEMPTS + periods);
  }
}
