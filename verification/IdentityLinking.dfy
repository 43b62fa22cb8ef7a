/** internal/auth/identity.go: deciding which account a login belongs to, and the confirmation flow that
    links a new login method to an account somebody already uses. Each resolver call is one atomic step, as
    the Store contract asks. */
module IdentityLinking {
  import opened Basics
  import opened Text

  type UserId = nat
  type RequestId = nat
  type Time = int

  datatype Provider = Local | Saml | Oidc

  /** What auth_identities is unique by. */
  datatype IdentityKey = IdentityKey(provider: Provider, config: Option<nat>, subject: string)

  datatype User = User(email: string, emailVerified: bool)

  datatype Identity = Identity(userId: UserId, emailAtLink: string)

  /** A request's raw token is drawn fresh for it, so its id stands for the token as well. */
  datatype PendingLinkRequest = PendingLinkRequest(
    userId: UserId,
    key: IdentityKey,
    expiresAt: Time,
    confirmedAt: Option<Time>)

  datatype Mail = ConfirmationLink(to: string, token: RequestId) | ReviewNotice(to: string)

  datatype LoginAttempt = LoginAttempt(key: IdentityKey, email: string, emailVerified: bool, trusted: bool)

  datatype Outcome = LoggedIn(user: UserId) | PendingConfirmation

  datatype AuthError = NotFound | TokenExpired | TokenAlreadyUsed | DuplicateIdentity

  type Reply = Result<Outcome, AuthError>

  /** `emails` is the case-insensitive unique index on users.email. */
  datatype State = State(
    users: map<UserId, User>,
    emails: map<string, UserId>,
    identities: map<IdentityKey, Identity>,
    requests: map<RequestId, PendingLinkRequest>,
    mails: seq<Mail>,
    nextUser: UserId,
    nextRequest: RequestId)

  const EMPTY := State(map[], map[], map[], map[], [], 0, 0)

  /** 30 minutes, in seconds. */
  const DEFAULT_PENDING_LINK_TTL := 1800

  datatype Settings = Settings(tokenTtl: int, requireReauth: bool) {
    function Ttl(): int {
      if tokenTtl <= 0 then DEFAULT_PENDING_LINK_TTL else tokenTtl
    }
  }

  function KeysOf(s: State, user: UserId): set<IdentityKey> {
    set key | key in s.identities && s.identities[key].userId == user
  }

  function FindUserByEmail(s: State, email: string): Option<UserId> {
    if Fold(email) in s.emails then Some(s.emails[Fold(email)]) else None
  }

  function CreateUser(s: State, email: string, verified: bool): State {
    s.(users := s.users[s.nextUser := User(email, verified)],
       emails := s.emails[Fold(email) := s.nextUser],
       nextUser := s.nextUser + 1)
  }

  function Attach(s: State, user: UserId, key: IdentityKey, email: string): State {
    s.(identities := s.identities[key := Identity(user, email)])
  }

  /** The mail always goes to the account's registered address. */
  function RequestConfirmation(s: State, user: UserId, key: IdentityKey, now: Time, settings: Settings): State {
    var s' := s.(requests := s.requests[s.nextRequest := PendingLinkRequest(user, key, now + settings.Ttl(), None)],
                 nextRequest := s.nextRequest + 1);
    if user !in s.users then s'
    else if settings.requireReauth then s'.(mails := s.mails + [ReviewNotice(s.users[user].email)])
    else s'.(mails := s.mails + [ConfirmationLink(s.users[user].email, s.nextRequest)])
  }

  function ConfirmationReply(s: State, user: UserId): Reply {
    if user in s.users then Ok(PendingConfirmation) else Err(NotFound)
  }

  function Resolve(s: State, attempt: LoginAttempt, now: Time, settings: Settings): (State, Reply) {
    if attempt.key in s.identities then
      var identity := s.identities[attempt.key];
      if !EqualFold(identity.emailAtLink, attempt.email) then
        (RequestConfirmation(s, identity.userId, attempt.key, now, settings), ConfirmationReply(s, identity.userId))
      else if identity.userId !in s.users then (s, Err(NotFound))
      else (s, Ok(LoggedIn(identity.userId)))
    else
      match FindUserByEmail(s, attempt.email)
      case None =>
        (Attach(CreateUser(s, attempt.email, attempt.emailVerified), s.nextUser, attempt.key, attempt.email),
         Ok(LoggedIn(s.nextUser)))
      case Some(user) =>
        if KeysOf(s, user) == {} || attempt.trusted then
          (Attach(s, user, attempt.key, attempt.email), Ok(LoggedIn(user)))
        else
          (RequestConfirmation(s, user, attempt.key, now, settings), ConfirmationReply(s, user))
  }

  /** The checks and writes shared by the mailed link and the reauthenticated approval. */
  function Complete(s: State, id: RequestId, now: Time): (State, Reply)
    requires id in s.requests
  {
    var request := s.requests[id];
    if request.confirmedAt.Some? then (s, Err(TokenAlreadyUsed))
    else if now > request.expiresAt then (s, Err(TokenExpired))
    else if request.userId !in s.users then (s, Err(NotFound))
    else if request.key in s.identities then (s, Err(DuplicateIdentity))
    else
      (Attach(s, request.userId, request.key, s.users[request.userId].email)
         .(requests := s.requests[id := request.(confirmedAt := Some(now))]),
       Ok(LoggedIn(request.userId)))
  }

  function ConfirmPendingLink(s: State, token: RequestId, now: Time): (State, Reply) {
    if token in s.requests then Complete(s, token, now) else (s, Err(NotFound))
  }

  function ApprovePendingLink(s: State, approver: UserId, id: RequestId, now: Time): (State, Reply) {
    if id in s.requests && s.requests[id].userId == approver then Complete(s, id, now) else (s, Err(NotFound))
  }

  /** The resolver over its tables, updated in place. */
  class Resolver {
    var users: map<UserId, User>
    var emails: map<string, UserId>
    var identities: map<IdentityKey, Identity>
    var requests: map<RequestId, PendingLinkRequest>
    var mails: seq<Mail>
    var nextUser: UserId
    var nextRequest: RequestId
    const settings: Settings

    constructor (settings: Settings)
      ensures Tables() == EMPTY && this.settings == settings
    {
      this.settings := settings;
      users, emails, identities, requests, mails := map[], map[], map[], map[], [];
      nextUser, nextRequest := 0, 0;
    }

    function Tables(): State
      reads this
    {
      State(users, emails, identities, requests, mails, nextUser, nextRequest)
    }

    method RequestLink(user: UserId, key: IdentityKey, now: Time) returns (r: Reply)
      modifies this
      ensures Tables() == RequestConfirmation(old(Tables()), user, key, now, settings)
      ensures r == ConfirmationReply(old(Tables()), user)
    {
      var token := nextRequest;
      requests := requests[token := PendingLinkRequest(user, key, now + settings.Ttl(), None)];
      nextRequest := nextRequest + 1;
      if user !in users {
        return Err(NotFound);
      }
      if settings.requireReauth {
        mails := mails + [ReviewNotice(users[user].email)];
      } else {
        mails := mails + [ConfirmationLink(users[user].email, token)];
      }
      return Ok(PendingConfirmation);
    }

    method Login(attempt: LoginAttempt, now: Time) returns (r: Reply)
      modifies this
      ensures (Tables(), r) == Resolve(old(Tables()), attempt, now, settings)
    {
      if attempt.key in identities {
        var identity := identities[attempt.key];
        if !EqualFold(identity.emailAtLink, attempt.email) {
          r := RequestLink(identity.userId, attempt.key, now);
          return;
        }
        return if identity.userId in users then Ok(LoggedIn(identity.userId)) else Err(NotFound);
      }
      var found := FindUserByEmail(Tables(), attempt.email);
      if found.None? {
        var user := nextUser;
        users := users[user := User(attempt.email, attempt.emailVerified)];
        emails := emails[Fold(attempt.email) := user];
        nextUser := nextUser + 1;
        identities := identities[attempt.key := Identity(user, attempt.email)];
        return Ok(LoggedIn(user));
      }
      var user := found.value;
      if KeysOf(Tables(), user) == {} || attempt.trusted {
        identities := identities[attempt.key := Identity(user, attempt.email)];
        return Ok(LoggedIn(user));
      }
      r := RequestLink(user, attempt.key, now);
    }

    method Finish(id: RequestId, now: Time) returns (r: Reply)
      requires id in requests
      modifies this
      ensures (Tables(), r) == Complete(old(Tables()), id, now)
    {
      var request := requests[id];
      if request.confirmedAt.Some? {
        return Err(TokenAlreadyUsed);
      }
      if now > request.expiresAt {
        return Err(TokenExpired);
      }
      if request.userId !in users {
        return Err(NotFound);
      }
      if request.key in identities {
        return Err(DuplicateIdentity);
      }
      identities := identities[request.key := Identity(request.userId, users[request.userId].email)];
      requests := requests[id := request.(confirmedAt := Some(now))];
      return Ok(LoggedIn(request.userId));
    }

    method Confirm(token: RequestId, now: Time) returns (r: Reply)
      modifies this
      ensures (Tables(), r) == ConfirmPendingLink(old(Tables()), token, now)
    {
      if token !in requests {
        return Err(NotFound);
      }
      r := Finish(token, now);
    }

    method Approve(approver: UserId, id: RequestId, now: Time) returns (r: Reply)
      modifies this
      ensures (Tables(), r) == ApprovePendingLink(old(Tables()), approver, id, now)
    {
      if id !in requests || requests[id].userId != approver {
        return Err(NotFound);
      }
      r := Finish(id, now);
    }
  }

  // ----- Runs -----

  /** Invite is find-or-create: a placeholder user with no way to log in yet. */
  datatype Action =
    | Login(attempt: LoginAttempt, now: Time, settings: Settings)
    | Confirm(token: RequestId, now: Time)
    | Approve(approver: UserId, request: RequestId, now: Time)
    | Invite(email: string)

  function Effect(s: State, a: Action): (State, Reply) {
    match a
    case Login(attempt, now, settings) => Resolve(s, attempt, now, settings)
    case Confirm(token, now) => ConfirmPendingLink(s, token, now)
    case Approve(approver, request, now) => ApprovePendingLink(s, approver, request, now)
    case Invite(email) =>
      match FindUserByEmail(s, email) {
        case Some(user) => (s, Ok(LoggedIn(user)))
        case None => (CreateUser(s, email, false), Ok(LoggedIn(s.nextUser)))
      }
  }

  function Step(s: State, a: Action): State {
    Effect(s, a).0
  }

  function Run(s: State, actions: seq<Action>): State {
    if actions == [] then s
    else Step(Run(s, actions[..|actions| - 1]), actions[|actions| - 1])
  }

  /** Local attempts come from LocalSignup: the email is the subject, and they are never trusted. */
  predicate FromHandlers(a: Action) {
    a.Login? && a.attempt.key.provider.Local? ==>
      a.attempt.key.config.None? && a.attempt.key.subject == a.attempt.email && !a.attempt.trusted
  }

  ghost predicate AllFromHandlers(actions: seq<Action>) {
    forall i :: 0 <= i < |actions| ==> FromHandlers(actions[i])
  }

  // ----- Login safety -----

  ghost predicate EmailIndexed(s: State) {
    && (forall u :: u in s.users ==>
          u < s.nextUser && Fold(s.users[u].email) in s.emails && s.emails[Fold(s.users[u].email)] == u)
    && (forall e :: e in s.emails ==> s.emails[e] in s.users && Fold(s.users[s.emails[e]].email) == e)
  }

  /** Every identity's recorded email is its user's current one, up to case. */
  ghost predicate EmailAtLinkCurrent(s: State) {
    forall key :: key in s.identities ==>
      s.identities[key].userId in s.users
      && EqualFold(s.identities[key].emailAtLink, s.users[s.identities[key].userId].email)
  }

  ghost predicate RequestsNameUsers(s: State) {
    forall id :: id in s.requests ==> id < s.nextRequest && s.requests[id].userId in s.users
  }

  /** A local subject is an email, and always its user's. */
  ghost predicate LocalSubjectsAreEmails(s: State) {
    && (forall key :: key in s.identities && key.provider.Local? ==>
          EqualFold(key.subject, s.identities[key].emailAtLink))
    && (forall id :: id in s.requests && s.requests[id].key.provider.Local? && s.requests[id].userId in s.users ==>
          EqualFold(s.requests[id].key.subject, s.users[s.requests[id].userId].email))
  }

  ghost predicate Inv(s: State) {
    EmailIndexed(s) && EmailAtLinkCurrent(s) && RequestsNameUsers(s) && LocalSubjectsAreEmails(s)
  }

  lemma InvCreateUser(s: State, email: string, verified: bool)
    requires Inv(s) && FindUserByEmail(s, email).None?
    ensures Inv(CreateUser(s, email, verified))
    ensures CreateUser(s, email, verified).users[s.nextUser].email == email
  {
  }

  lemma InvAttach(s: State, user: UserId, key: IdentityKey, email: string)
    requires Inv(s) && user in s.users && EqualFold(email, s.users[user].email)
    requires key.provider.Local? ==> EqualFold(key.subject, email)
    ensures Inv(Attach(s, user, key, email))
  {
  }

  lemma InvRequest(s: State, user: UserId, key: IdentityKey, now: Time, settings: Settings)
    requires Inv(s) && user in s.users
    requires key.provider.Local? ==> EqualFold(key.subject, s.users[user].email)
    ensures Inv(RequestConfirmation(s, user, key, now, settings))
  {
  }

  lemma InvResolve(s: State, attempt: LoginAttempt, now: Time, settings: Settings)
    requires Inv(s) && FromHandlers(Login(attempt, now, settings))
    ensures Inv(Resolve(s, attempt, now, settings).0)
  {
    if attempt.key in s.identities {
      var identity := s.identities[attempt.key];
      if !EqualFold(identity.emailAtLink, attempt.email) {
        InvRequest(s, identity.userId, attempt.key, now, settings);
      }
    } else {
      match FindUserByEmail(s, attempt.email)
      case None =>
        InvCreateUser(s, attempt.email, attempt.emailVerified);
        InvAttach(CreateUser(s, attempt.email, attempt.emailVerified), s.nextUser, attempt.key, attempt.email);
      case Some(user) =>
        if KeysOf(s, user) == {} || attempt.trusted {
          InvAttach(s, user, attempt.key, attempt.email);
        } else {
          InvRequest(s, user, attempt.key, now, settings);
        }
    }
  }

  lemma InvComplete(s: State, id: RequestId, now: Time)
    requires Inv(s) && id in s.requests
    ensures Inv(Complete(s, id, now).0)
  {
    var request := s.requests[id];
    InvAttach(s, request.userId, request.key, s.users[request.userId].email);
  }

  lemma InvStep(s: State, a: Action)
    requires Inv(s) && FromHandlers(a)
    ensures Inv(Step(s, a))
  {
    match a
    case Login(attempt, now, settings) => InvResolve(s, attempt, now, settings);
    case Confirm(token, now) => if token in s.requests { InvComplete(s, token, now); }
    case Approve(_, request, now) => if request in s.requests { InvComplete(s, request, now); }
    case Invite(email) => if FindUserByEmail(s, email).None? { InvCreateUser(s, email, false); }
  }

  lemma {:induction false} InvRun(actions: seq<Action>)
    requires AllFromHandlers(actions)
    ensures Inv(Run(EMPTY, actions))
  {
    if actions != [] {
      var n := |actions| - 1;
      InvRun(actions[..n]);
      InvStep(Run(EMPTY, actions[..n]), actions[n]);
    }
  }

  /** In every reachable state the recorded email of an identity is its account's email, so a login ever only
      enters the account whose email it presents, up to case. */
  lemma LoginEntersOnlyItsOwnEmail(actions: seq<Action>, attempt: LoginAttempt, now: Time, settings: Settings)
    requires AllFromHandlers(actions) && FromHandlers(Login(attempt, now, settings))
    ensures var s := Run(EMPTY, actions); var (s', reply) := Resolve(s, attempt, now, settings);
      && EmailAtLinkCurrent(s) && EmailAtLinkCurrent(s')
      && (reply.Ok? && reply.value.LoggedIn? ==>
            reply.value.user in s'.users && EqualFold(s'.users[reply.value.user].email, attempt.email))
      && reply.Ok?
  {
    InvRun(actions);
    InvResolve(Run(EMPTY, actions), attempt, now, settings);
  }

  /** The reassigned-email branch can only be taken by SSO logins. */
  lemma LocalLoginIsNeverReassigned(actions: seq<Action>, attempt: LoginAttempt)
    requires AllFromHandlers(actions) && attempt.key.provider.Local? && attempt.key.subject == attempt.email
    requires attempt.key in Run(EMPTY, actions).identities
    ensures EqualFold(Run(EMPTY, actions).identities[attempt.key].emailAtLink, attempt.email)
  {
    InvRun(actions);
  }

  // ----- Provenance and stability of links -----

  lemma BindingStaysInStep(s: State, a: Action)
    ensures forall key :: key in s.identities ==>
              key in Step(s, a).identities && Step(s, a).identities[key] == s.identities[key]
    ensures forall u :: u in s.users && u < s.nextUser ==> u in Step(s, a).users && Step(s, a).users[u] == s.users[u]
    ensures Step(s, a).nextUser >= s.nextUser && Step(s, a).nextRequest >= s.nextRequest
  {
  }

  /** A bound (provider, config, subject) is never re-pointed, and an account's email never changes. */
  lemma {:induction false} BindingsAreStable(s: State, actions: seq<Action>)
    requires Inv(s) && AllFromHandlers(actions)
    ensures Inv(Run(s, actions))
    ensures forall key :: key in s.identities ==>
              key in Run(s, actions).identities && Run(s, actions).identities[key] == s.identities[key]
    ensures forall u :: u in s.users ==> u in Run(s, actions).users && Run(s, actions).users[u] == s.users[u]
  {
    if actions != [] {
      var n := |actions| - 1;
      BindingsAreStable(s, actions[..n]);
      InvStep(Run(s, actions[..n]), actions[n]);
      BindingStaysInStep(Run(s, actions[..n]), actions[n]);
    }
  }

  ghost predicate Completes(s: State, a: Action, id: RequestId) {
    || (a.Confirm? && a.token == id)
    || (a.Approve? && a.request == id && id in s.requests && a.approver == s.requests[id].userId)
  }

  /** The request a step consumes: it was open and in time, and its identity is bound by the step. */
  ghost predicate Consumes(s: State, a: Action, id: RequestId) {
    && Completes(s, a, id)
    && id in s.requests && s.requests[id].confirmedAt.None? && a.now <= s.requests[id].expiresAt
    && s.requests[id].key !in s.identities
    && id in Step(s, a).requests && Step(s, a).requests[id].confirmedAt == Some(a.now)
    && s.requests[id].key in Step(s, a).identities
    && Step(s, a).identities[s.requests[id].key].userId == s.requests[id].userId
  }

  ghost predicate TrustedLink(a: Action, key: IdentityKey) {
    a.Login? && a.attempt.trusted && a.attempt.key == key
  }

  lemma CompletionConsumes(s: State, a: Action, id: RequestId, key: IdentityKey)
    requires Completes(s, a, id)
    requires key !in s.identities && key in Step(s, a).identities
    ensures Consumes(s, a, id) && s.requests[id].key == key
    ensures s.requests[id].userId == Step(s, a).identities[key].userId
  {
  }

  lemma LoginProvenance(s: State, a: Action, key: IdentityKey)
    requires Inv(s) && a.Login? && key !in s.identities && key in Step(s, a).identities
    ensures var user := Step(s, a).identities[key].userId;
      KeysOf(s, user) == {} || (TrustedLink(a, key) && user in s.users && EqualFold(a.attempt.email, s.users[user].email))
  {
    if FindUserByEmail(s, a.attempt.email).None? {
      assert Step(s, a).identities[key].userId == s.nextUser;
      assert KeysOf(s, s.nextUser) == {};
    }
  }

  /** Somebody who can already log in gains a login method only from an identity provider the system trusts,
      or by an open request that names them and that very identity. */
  lemma NewLinkHasProvenance(s: State, a: Action, key: IdentityKey)
    requires Inv(s) && FromHandlers(a)
    requires key !in s.identities && key in Step(s, a).identities
    ensures var user := Step(s, a).identities[key].userId;
      || KeysOf(s, user) == {}
      || (TrustedLink(a, key) && user in s.users && EqualFold(a.attempt.email, s.users[user].email))
      || exists id :: Consumes(s, a, id) && s.requests[id].key == key && s.requests[id].userId == user
  {
    match a
    case Login(_, _, _) => LoginProvenance(s, a, key);
    case Confirm(token, _) => CompletionConsumes(s, a, token, key);
    case Approve(_, request, _) =>
      assert Completes(s, a, request);
      CompletionConsumes(s, a, request, key);
    case Invite(_) =>
  }

  lemma ConfirmedStays(s: State, a: Action, id: RequestId)
    requires RequestsNameUsers(s) && id in s.requests
    ensures id in Step(s, a).requests && Step(s, a).requests[id].userId == s.requests[id].userId
    ensures Step(s, a).requests[id].key == s.requests[id].key
    ensures Step(s, a).requests[id].expiresAt == s.requests[id].expiresAt
    ensures s.requests[id].confirmedAt.Some? ==> Step(s, a).requests[id] == s.requests[id]
  {
  }

  lemma {:induction false} ConfirmedForever(s: State, actions: seq<Action>, id: RequestId)
    requires Inv(s) && AllFromHandlers(actions)
    requires id in s.requests && s.requests[id].confirmedAt.Some?
    ensures id in Run(s, actions).requests && Run(s, actions).requests[id] == s.requests[id]
  {
    if actions != [] {
      var n := |actions| - 1;
      ConfirmedForever(s, actions[..n], id);
      BindingsAreStable(s, actions[..n]);
      ConfirmedStays(Run(s, actions[..n]), actions[n], id);
    }
  }

  /** A request yields at most one identity: once consumed it is not consumed again, whatever happens. */
  lemma RequestConsumedOnce(s: State, a: Action, between: seq<Action>, b: Action, id: RequestId)
    requires Inv(s) && FromHandlers(a) && AllFromHandlers(between) && Consumes(s, a, id)
    ensures !Consumes(Run(Step(s, a), between), b, id)
  {
    InvStep(s, a);
    ConfirmedForever(Step(s, a), between, id);
  }

  function ConfirmedRequests(s: State, user: UserId): set<RequestId> {
    set id | id in s.requests && s.requests[id].userId == user && s.requests[id].confirmedAt.Some?
  }

  /** How many identities trusted logins attached to an account that already had one. */
  function TrustedLinks(s: State, actions: seq<Action>, user: UserId): nat {
    if actions == [] then 0
    else
      var n := |actions| - 1;
      var before, a := Run(s, actions[..n]), actions[n];
      TrustedLinks(s, actions[..n], user)
        + (if a.Login? && a.attempt.trusted && KeysOf(Step(before, a), user) != KeysOf(before, user) then 1 else 0)
  }

  lemma KeysAfterAttach(s: State, user: UserId, key: IdentityKey, email: string, u: UserId)
    requires key !in s.identities
    ensures |KeysOf(Attach(s, user, key, email), u)| == |KeysOf(s, u)| + (if u == user then 1 else 0)
  {
    var s' := Attach(s, user, key, email);
    assert KeysOf(s', u) == if u == user then KeysOf(s, u) + {key} else KeysOf(s, u);
  }

  ghost predicate LinksPaidFor(s: State, s': State, user: UserId, trusted: bool) {
    && ConfirmedRequests(s, user) <= ConfirmedRequests(s', user)
    && (|KeysOf(s', user)| > |KeysOf(s, user)| ==>
          && |KeysOf(s', user)| == |KeysOf(s, user)| + 1
          && (|KeysOf(s, user)| == 0 || trusted || |ConfirmedRequests(s', user)| == |ConfirmedRequests(s, user)| + 1))
  }

  lemma NewAccountPays(s: State, attempt: LoginAttempt, user: UserId)
    requires Inv(s) && attempt.key !in s.identities
    ensures var s1 := CreateUser(s, attempt.email, attempt.emailVerified);
      LinksPaidFor(s, Attach(s1, s.nextUser, attempt.key, attempt.email), user, attempt.trusted)
  {
    var s1 := CreateUser(s, attempt.email, attempt.emailVerified);
    KeysAfterAttach(s1, s.nextUser, attempt.key, attempt.email, user);
    assert KeysOf(s1, user) == KeysOf(s, user);
    assert KeysOf(s, s.nextUser) == {};
  }

  lemma AttachPays(s: State, attempt: LoginAttempt, u: UserId, user: UserId)
    requires attempt.key !in s.identities && (KeysOf(s, u) == {} || attempt.trusted)
    ensures LinksPaidFor(s, Attach(s, u, attempt.key, attempt.email), user, attempt.trusted)
  {
    KeysAfterAttach(s, u, attempt.key, attempt.email, user);
  }

  lemma RequestPays(s: State, u: UserId, key: IdentityKey, now: Time, settings: Settings, user: UserId, trusted: bool)
    requires RequestsNameUsers(s)
    ensures LinksPaidFor(s, RequestConfirmation(s, u, key, now, settings), user, trusted)
  {
    assert KeysOf(RequestConfirmation(s, u, key, now, settings), user) == KeysOf(s, user);
  }

  lemma ResolvePaysForLinks(s: State, attempt: LoginAttempt, now: Time, settings: Settings, user: UserId)
    requires Inv(s)
    ensures LinksPaidFor(s, Resolve(s, attempt, now, settings).0, user, attempt.trusted)
  {
    if attempt.key in s.identities {
      RequestPays(s, s.identities[attempt.key].userId, attempt.key, now, settings, user, attempt.trusted);
    } else {
      match FindUserByEmail(s, attempt.email)
      case None => NewAccountPays(s, attempt, user);
      case Some(u) =>
        if KeysOf(s, u) == {} || attempt.trusted {
          AttachPays(s, attempt, u, user);
        } else {
          RequestPays(s, u, attempt.key, now, settings, user, attempt.trusted);
        }
    }
  }

  lemma CompletePaysForLinks(s: State, id: RequestId, now: Time, user: UserId)
    requires Inv(s) && id in s.requests
    ensures LinksPaidFor(s, Complete(s, id, now).0, user, false)
  {
    var (s', reply) := Complete(s, id, now);
    if reply.Ok? {
      var request := s.requests[id];
      var s1 := Attach(s, request.userId, request.key, s.users[request.userId].email);
      KeysAfterAttach(s, request.userId, request.key, s.users[request.userId].email, user);
      assert KeysOf(s', user) == KeysOf(s1, user);
      assert ConfirmedRequests(s', user) ==
             if user == request.userId then ConfirmedRequests(s, user) + {id} else ConfirmedRequests(s, user);
    }
  }

  lemma StepPaysForLinks(s: State, a: Action, user: UserId)
    requires Inv(s)
    ensures LinksPaidFor(s, Step(s, a), user, a.Login? && a.attempt.trusted)
  {
    match a
    case Login(attempt, now, settings) => ResolvePaysForLinks(s, attempt, now, settings, user);
    case Confirm(token, now) => if token in s.requests { CompletePaysForLinks(s, token, now, user); }
    case Approve(_, request, now) => if request in s.requests { CompletePaysForLinks(s, request, now, user); }
    case Invite(_) => assert KeysOf(Step(s, a), user) == KeysOf(s, user);
  }

  /** Over a whole run an account collects at most one identity for its first activation, one for each trusted
      login that added one, and one for each of its requests that was confirmed. */
  lemma {:induction false} IdentitiesAreAccountedFor(actions: seq<Action>, user: UserId)
    requires AllFromHandlers(actions)
    ensures var s := Run(EMPTY, actions);
      |KeysOf(s, user)| <= 1 + TrustedLinks(EMPTY, actions, user) + |ConfirmedRequests(s, user)|
  {
    if actions == [] {
      assert KeysOf(EMPTY, user) == {};
    } else {
      var n := |actions| - 1;
      var s := Run(EMPTY, actions[..n]);
      IdentitiesAreAccountedFor(actions[..n], user);
      InvRun(actions[..n]);
      StepPaysForLinks(s, actions[n], user);
      SubsetCardinality(ConfirmedRequests(s, user), ConfirmedRequests(Step(s, actions[n]), user));
    }
  }

  lemma SubsetCardinality<T>(a: set<T>, b: set<T>)
    requires a <= b
    ensures |a| <= |b|
  {
    if a != {} {
      var x :| x in a;
      SubsetCardinality(a - {x}, b - {x});
    }
  }

  // ----- Link round trip -----

  /** Steps that neither bind this identity nor use up a request for it. Trying the held-back login again, with
      the same email, is one of them. */
  ghost predicate Unrelated(s: State, a: Action, key: IdentityKey, email: string) {
    match a
    case Login(attempt, _, _) => attempt.key != key || (!attempt.trusted && EqualFold(attempt.email, email))
    case Confirm(token, _) => token in s.requests ==> s.requests[token].key != key
    case Approve(_, request, _) => request in s.requests ==> s.requests[request].key != key
    case Invite(_) => true
  }

  ghost predicate AllUnrelated(s: State, actions: seq<Action>, key: IdentityKey, email: string) {
    forall i :: 0 <= i < |actions| ==> Unrelated(Run(s, actions[..i]), actions[i], key, email)
  }

  /** The email belongs to an account that can already log in. */
  ghost predicate Claimed(s: State, email: string) {
    Fold(email) in s.emails && KeysOf(s, s.emails[Fold(email)]) != {}
  }

  /** The request is there, its identity is not bound, and the email it was made for is claimed. */
  ghost predicate Waiting(s: State, key: IdentityKey, email: string, id: RequestId) {
    key !in s.identities && id in s.requests && s.requests[id].key == key && Claimed(s, email)
  }

  ghost predicate StillOpen(s: State, s': State, key: IdentityKey, id: RequestId)
    requires id in s.requests
  {
    key !in s'.identities && id in s'.requests && s'.requests[id] == s.requests[id]
  }

  lemma LoginKeepsOpen(s: State, attempt: LoginAttempt, now: Time, settings: Settings, key: IdentityKey, email: string,
                       id: RequestId)
    requires Waiting(s, key, email, id) && id < s.nextRequest
    requires attempt.key != key || (!attempt.trusted && EqualFold(attempt.email, email))
    ensures StillOpen(s, Resolve(s, attempt, now, settings).0, key, id)
  {
  }

  lemma OtherCompletionKeepsOpen(s: State, other: RequestId, now: Time, key: IdentityKey, id: RequestId)
    requires id in s.requests && s.requests[id].key == key && key !in s.identities
    requires other in s.requests && s.requests[other].key != key
    ensures StillOpen(s, Complete(s, other, now).0, key, id)
  {
  }

  lemma UnrelatedStepKeepsOpen(s: State, a: Action, key: IdentityKey, email: string, id: RequestId)
    requires RequestsNameUsers(s) && Unrelated(s, a, key, email) && Waiting(s, key, email, id)
    ensures StillOpen(s, Step(s, a), key, id)
  {
    match a
    case Login(attempt, now, settings) => LoginKeepsOpen(s, attempt, now, settings, key, email, id);
    case Confirm(token, now) => if token in s.requests { OtherCompletionKeepsOpen(s, token, now, key, id); }
    case Approve(_, request, now) => if request in s.requests { OtherCompletionKeepsOpen(s, request, now, key, id); }
    case Invite(_) =>
  }

  lemma ClaimedStays(s: State, actions: seq<Action>, email: string)
    requires Inv(s) && AllFromHandlers(actions) && Claimed(s, email)
    ensures Claimed(Run(s, actions), email) && Inv(Run(s, actions))
  {
    BindingsAreStable(s, actions);
    var user := s.emails[Fold(email)];
    var key :| key in KeysOf(s, user);
    assert Run(s, actions).users[user] == s.users[user];
    assert key in KeysOf(Run(s, actions), user);
  }

  lemma {:induction false} RequestStaysOpen(s: State, actions: seq<Action>, key: IdentityKey, email: string,
                                            id: RequestId)
    requires Inv(s) && AllFromHandlers(actions) && AllUnrelated(s, actions, key, email) && Waiting(s, key, email, id)
    ensures StillOpen(s, Run(s, actions), key, id)
    decreases |actions|
  {
    if actions != [] {
      var n := |actions| - 1;
      forall i | 0 <= i < n ensures Unrelated(Run(s, actions[..n][..i]), actions[..n][i], key, email) {
        assert actions[..n][..i] == actions[..i];
      }
      assert |actions[..n]| == n;
      RequestStaysOpen(s, actions[..n], key, email, id);
      UnrelatedNextKeepsOpen(s, actions, key, email, id);
    }
  }

  lemma UnrelatedNextKeepsOpen(s: State, actions: seq<Action>, key: IdentityKey, email: string, id: RequestId)
    requires Inv(s) && actions != [] && AllFromHandlers(actions) && AllUnrelated(s, actions, key, email)
    requires Waiting(s, key, email, id) && StillOpen(s, Run(s, actions[..|actions| - 1]), key, id)
    ensures StillOpen(s, Run(s, actions), key, id)
  {
    var n := |actions| - 1;
    ClaimedStays(s, actions[..n], email);
    assert Unrelated(Run(s, actions[..n]), actions[n], key, email);
    UnrelatedStepKeepsOpen(Run(s, actions[..n]), actions[n], key, email, id);
  }

  /** From the moment a known identity presents its account's email, every such login succeeds without
      writing a request or sending mail. */
  lemma LinkedLoginIsQuiet(s: State, attempt: LoginAttempt, now: Time, settings: Settings)
    requires Inv(s) && attempt.key in s.identities
    requires EqualFold(attempt.email, s.users[s.identities[attempt.key].userId].email)
    ensures Resolve(s, attempt, now, settings) == (s, Ok(LoggedIn(s.identities[attempt.key].userId)))
  {
  }

  lemma HeldBackLogin(s: State, attempt: LoginAttempt, now: Time, settings: Settings)
    requires Inv(s) && attempt.key !in s.identities && Resolve(s, attempt, now, settings).1 == Ok(PendingConfirmation)
    ensures Fold(attempt.email) in s.emails
    ensures var user := s.emails[Fold(attempt.email)]; var s1 := Resolve(s, attempt, now, settings).0;
      && user in s1.users && EqualFold(s1.users[user].email, attempt.email)
      && attempt.key !in s1.identities && s.nextRequest in s1.requests
      && s1.requests[s.nextRequest] == PendingLinkRequest(user, attempt.key, now + settings.Ttl(), None)
      && Claimed(s1, attempt.email)
  {
  }

  lemma OpenRequestCompletes(s: State, finish: Action, id: RequestId)
    requires Inv(s) && Completes(s, finish, id) && id in s.requests
    requires s.requests[id].confirmedAt.None? && finish.now <= s.requests[id].expiresAt
    requires s.requests[id].key !in s.identities
    ensures Effect(s, finish).1 == Ok(LoggedIn(s.requests[id].userId))
    ensures var s' := Step(s, finish); var key := s.requests[id].key;
      key in s'.identities && s'.identities[key].userId == s.requests[id].userId && s'.users == s.users
  {
  }

  /** If a login was held back because its email belongs to a claimed account, then once that request is
      confirmed, or approved by the account, in time, the same login enters that account from then on, with
      no further request or mail, through any unrelated steps or retries before and any steps at all after. */
  lemma LinkRoundTrip(s: State, attempt: LoginAttempt, now: Time, settings: Settings,
                      before: seq<Action>, finish: Action, after: seq<Action>, later: Time, settings': Settings)
    requires Inv(s) && FromHandlers(Login(attempt, now, settings))
    requires attempt.key !in s.identities && Resolve(s, attempt, now, settings).1 == Ok(PendingConfirmation)
    requires var s1 := Resolve(s, attempt, now, settings).0;
      AllFromHandlers(before) && AllFromHandlers(after) && AllUnrelated(s1, before, attempt.key, attempt.email)
    requires finish.Confirm? || finish.Approve?
    requires finish.Confirm? ==> finish.token == s.nextRequest
    requires finish.Approve? ==> finish.request == s.nextRequest && finish.approver == s.emails[Fold(attempt.email)]
    requires finish.now <= now + settings.Ttl()
    ensures var user := s.emails[Fold(attempt.email)];
      var s2 := Run(Resolve(s, attempt, now, settings).0, before);
      var s4 := Run(Step(s2, finish), after);
      && Effect(s2, finish).1 == Ok(LoggedIn(user))
      && Resolve(s4, attempt, later, settings') == (s4, Ok(LoggedIn(user)))
  {
    var user := s.emails[Fold(attempt.email)];
    var s1 := Resolve(s, attempt, now, settings).0;
    HeldBackLogin(s, attempt, now, settings);
    InvResolve(s, attempt, now, settings);
    RequestStaysOpen(s1, before, attempt.key, attempt.email, s.nextRequest);
    BindingsAreStable(s1, before);
    var s2 := Run(s1, before);
    OpenRequestCompletes(s2, finish, s.nextRequest);
    InvStep(s2, finish);
    BindingsAreStable(Step(s2, finish), after);
    LinkedLoginIsQuiet(Run(Step(s2, finish), after), attempt, later, settings');
  }

  // ----- A login held back for a changed email -----

  /** Every request for an identity that is bound is refused, by link or by approval, and changes nothing. */
  lemma BoundKeyRefusesRequests(s: State, id: RequestId, at: Time, approver: UserId)
    requires id in s.requests && s.requests[id].key in s.identities
    ensures ConfirmPendingLink(s, id, at).0 == s && ConfirmPendingLink(s, id, at).1.Err?
    ensures ApprovePendingLink(s, approver, id, at).0 == s && ApprovePendingLink(s, approver, id, at).1.Err?
  {
  }

  lemma ChangedEmailIsHeldBack(s: State, attempt: LoginAttempt, now: Time, settings: Settings)
    requires Inv(s) && attempt.key in s.identities && !EqualFold(s.identities[attempt.key].emailAtLink, attempt.email)
    ensures Resolve(s, attempt, now, settings).1 == Ok(PendingConfirmation)
  {
  }

  /** A known identity whose provider reports another email than at link time is sent to confirmation, but no
      confirmation can succeed: on every continuation the login stays held back, and every request for its key is
      refused. */
  lemma ChangedEmailNeverConfirms(s: State, attempt: LoginAttempt, actions: seq<Action>, now: Time, settings: Settings,
                                  id: RequestId, at: Time, approver: UserId)
    requires Inv(s) && AllFromHandlers(actions) && attempt.key in s.identities
    requires !EqualFold(s.identities[attempt.key].emailAtLink, attempt.email)
    ensures Resolve(Run(s, actions), attempt, now, settings).1 == Ok(PendingConfirmation)
    ensures var s' := Run(s, actions);
      id in s'.requests && s'.requests[id].key == attempt.key ==>
        ConfirmPendingLink(s', id, at).1.Err? && ApprovePendingLink(s', approver, id, at).1.Err?
  {
    BindingsAreStable(s, actions);
    var s' := Run(s, actions);
    ChangedEmailIsHeldBack(s', attempt, now, settings);
    if id in s'.requests && s'.requests[id].key == attempt.key {
      BoundKeyRefusesRequests(s', id, at, approver);
    }
  }

  // ----- What each operation answers and writes, from the tables -----

  /** The account's email differs from the one presented for its identity, or somebody may log in to the email's
      account already and the provider is not trusted to link to it. */
  ghost predicate HeldBack(s: State, attempt: LoginAttempt) {
    if attempt.key in s.identities then
      var user := s.identities[attempt.key].userId;
      user in s.users && !EqualFold(s.users[user].email, attempt.email)
    else !attempt.trusted && Claimed(s, attempt.email)
  }

  /** The account an attempt is about, if there is one: its identity's, or else its email's. */
  ghost predicate About(s: State, attempt: LoginAttempt, user: UserId) {
    if attempt.key in s.identities then s.identities[attempt.key].userId == user
    else user in s.users && EqualFold(s.users[user].email, attempt.email)
  }

  /** Only held-back logins are answered with confirmation. Any other enters the account it is about, or a new one
      with its email if there is none, and from then on its identity is that account's. */
  lemma LoginIsHeldBackIff(s: State, attempt: LoginAttempt, now: Time, settings: Settings)
    requires Inv(s)
    ensures var (s', reply) := Resolve(s, attempt, now, settings);
      && (reply == Ok(PendingConfirmation) <==> HeldBack(s, attempt))
      && (!HeldBack(s, attempt) ==>
            && reply.Ok? && reply.value.LoggedIn?
            && var user := reply.value.user;
               && (About(s, attempt, user) || (user !in s.users && forall u :: !About(s, attempt, u)))
               && attempt.key in s'.identities && s'.identities[attempt.key].userId == user)
  {
    if attempt.key !in s.identities && Fold(attempt.email) !in s.emails {
      forall u ensures !About(s, attempt, u) {
      }
    }
  }

  /** What a login that enters writes: a known identity nothing, a new one itself with its email, and an account only
      if its email has none. It never asks for confirmation. */
  lemma EnteringWrites(s: State, attempt: LoginAttempt, now: Time, settings: Settings)
    requires Inv(s) && !HeldBack(s, attempt)
    ensures var (s', reply) := Resolve(s, attempt, now, settings);
      && s'.requests == s.requests && s'.mails == s.mails
      && (attempt.key in s.identities ==> s' == s)
      && (attempt.key !in s.identities ==>
            && reply.Ok? && reply.value.LoggedIn?
            && s'.identities == s.identities[attempt.key := Identity(reply.value.user, attempt.email)]
            && s'.users == if Fold(attempt.email) in s.emails then s.users
                           else s.users[reply.value.user := User(attempt.email, attempt.emailVerified)])
  {
  }

  /** A trusted provider's first login for an email in use enters that account, claimed or not. */
  lemma TrustedLoginEnters(s: State, attempt: LoginAttempt, user: UserId, now: Time, settings: Settings)
    requires Inv(s) && attempt.trusted && attempt.key !in s.identities
    requires user in s.users && EqualFold(s.users[user].email, attempt.email)
    ensures Resolve(s, attempt, now, settings).1 == Ok(LoggedIn(user))
  {
  }

  /** What a held-back login writes: one open request for its identity in the name of the account, and one mail to the
      account's registered address, a notice where approval needs a fresh login, else a link with the request's token. */
  lemma HeldBackWrites(s: State, attempt: LoginAttempt, user: UserId, now: Time, settings: Settings)
    requires Inv(s) && HeldBack(s, attempt) && About(s, attempt, user)
    ensures var s', id := Resolve(s, attempt, now, settings).0, s.nextRequest;
      && user in s.users && id !in s.requests
      && s'.users == s.users && s'.identities == s.identities
      && s'.requests == s.requests[id := PendingLinkRequest(user, attempt.key, now + settings.Ttl(), None)]
      && s'.mails == s.mails + [if settings.requireReauth then ReviewNotice(s.users[user].email)
                                else ConfirmationLink(s.users[user].email, id)]
  {
  }

  /** A link lifetime is the one configured, or 30 minutes. */
  lemma LinkLifetime(settings: Settings)
    ensures settings.Ttl() > 0 && settings.Ttl() in {settings.tokenTtl, 30 * 60}
    ensures settings.tokenTtl > 0 ==> settings.Ttl() == settings.tokenTtl
  {
  }

  /** A request completes exactly if it is open, in time, and its identity still free; each refusal has its cause. */
  lemma CompletionAnswers(s: State, id: RequestId, now: Time)
    requires Inv(s) && id in s.requests
    ensures var request, reply := s.requests[id], ConfirmPendingLink(s, id, now).1;
      && (reply == Err(TokenAlreadyUsed) <==> request.confirmedAt.Some?)
      && (reply == Err(TokenExpired) <==> request.confirmedAt.None? && now > request.expiresAt)
      && (reply == Err(DuplicateIdentity) <==>
            request.confirmedAt.None? && now <= request.expiresAt && request.key in s.identities)
      && (reply == Ok(LoggedIn(request.userId)) <==>
            request.confirmedAt.None? && now <= request.expiresAt && request.key !in s.identities)
  {
  }

  /** What completing a request writes, by link or by approval. */
  lemma CompletionWrites(s: State, id: RequestId, now: Time)
    requires Inv(s) && id in s.requests
    ensures var request, (s', reply) := s.requests[id], ConfirmPendingLink(s, id, now);
      && s'.users == s.users && s'.mails == s.mails
      && (reply.Err? ==> s' == s)
      && (reply.Ok? ==>
            && s'.identities == s.identities[request.key := Identity(request.userId, s.users[request.userId].email)]
            && s'.requests == s.requests[id := request.(confirmedAt := Some(now))])
  {
  }

  /** Approving is confirming, for the account the request names and nobody else. */
  lemma ApprovalIsTheAccounts(s: State, approver: UserId, id: RequestId, now: Time)
    ensures ApprovePendingLink(s, approver, id, now) ==
            if id in s.requests && s.requests[id].userId != approver then (s, Err(NotFound))
            else ConfirmPendingLink(s, id, now)
    ensures id !in s.requests ==> ConfirmPendingLink(s, id, now) == (s, Err(NotFound))
  {
  }

  /** An invitation makes an account, its email unverified, exactly if there is none for it, and touches nothing else. */
  lemma InviteWrites(s: State, email: string)
    requires Inv(s)
    ensures var s' := Step(s, Invite(email));
      && s'.identities == s.identities && s'.requests == s.requests && s'.mails == s.mails
      && s'.users == if exists user :: user in s.users && EqualFold(s.users[user].email, email) then s.users
                     else s.users[s.nextUser := User(email, false)]
  {
    if Fold(email) in s.emails {
      assert EqualFold(s.users[s.emails[Fold(email)]].email, email);
    }
  }

  // ----- Which mails are sent, over runs -----

  predicate UnderReauth(a: Action) {
    a.Login? ==> a.settings.requireReauth
  }

  ghost predicate OnlyNoticesSince(mails: seq<Mail>, mails': seq<Mail>) {
    mails <= mails' && forall i :: |mails| <= i < |mails'| ==> mails'[i].ReviewNotice?
  }

  lemma NoticesOnlyInStep(s: State, a: Action)
    requires UnderReauth(a)
    ensures OnlyNoticesSince(s.mails, Step(s, a).mails)
  {
  }

  /** While approval needs a fresh login, no mail carries a token, on any run. */
  lemma {:induction false} NoTokenIsMailedUnderReauth(s: State, actions: seq<Action>)
    requires forall i :: 0 <= i < |actions| ==> UnderReauth(actions[i])
    ensures OnlyNoticesSince(s.mails, Run(s, actions).mails)
    decreases |actions|
  {
    if actions != [] {
      var n := |actions| - 1;
      assert |actions[..n]| == n;
      NoTokenIsMailedUnderReauth(s, actions[..n]);
      NoticesOnlyInStep(Run(s, actions[..n]), actions[n]);
    }
  }

  /** A mailed token belongs to a request for the account at whose address it arrived. */
  ghost predicate Reaches(s: State, mail: Mail) {
    mail.ConfirmationLink? ==>
      && mail.token in s.requests && s.requests[mail.token].userId in s.users
      && s.users[s.requests[mail.token].userId].email == mail.to
  }

  ghost predicate TokensReachTheirAccount(s: State) {
    forall mail :: mail in s.mails ==> Reaches(s, mail)
  }

  lemma ReachesStays(s: State, a: Action, mail: Mail)
    requires Inv(s) && Reaches(s, mail)
    ensures Reaches(Step(s, a), mail)
  {
    if mail.ConfirmationLink? {
      BindingStaysInStep(s, a);
      ConfirmedStays(s, a, mail.token);
    }
  }

  lemma LoginMailReaches(s: State, attempt: LoginAttempt, now: Time, settings: Settings, mail: Mail)
    requires Inv(s) && mail in Resolve(s, attempt, now, settings).0.mails && mail !in s.mails
    ensures Reaches(Resolve(s, attempt, now, settings).0, mail)
  {
    if HeldBack(s, attempt) {
      var user := if attempt.key in s.identities then s.identities[attempt.key].userId else s.emails[Fold(attempt.email)];
      HeldBackWrites(s, attempt, user, now, settings);
    } else {
      EnteringWrites(s, attempt, now, settings);
    }
  }

  lemma OtherStepsMailNothing(s: State, a: Action)
    requires !a.Login?
    ensures Step(s, a).mails == s.mails
  {
  }

  lemma TokensReachTheirAccountStep(s: State, a: Action)
    requires Inv(s) && TokensReachTheirAccount(s)
    ensures TokensReachTheirAccount(Step(s, a))
  {
    forall mail | mail in Step(s, a).mails ensures Reaches(Step(s, a), mail) {
      if mail in s.mails {
        ReachesStays(s, a, mail);
      } else if a.Login? {
        LoginMailReaches(s, a.attempt, a.now, a.settings, mail);
      } else {
        OtherStepsMailNothing(s, a);
      }
    }
  }

  lemma {:induction false} TokensAlwaysReachTheirAccount(actions: seq<Action>)
    requires AllFromHandlers(actions)
    ensures TokensReachTheirAccount(Run(EMPTY, actions))
    decreases |actions|
  {
    if actions != [] {
      var n := |actions| - 1;
      assert |actions[..n]| == n;
      TokensAlwaysReachTheirAccount(actions[..n]);
      InvRun(actions[..n]);
      TokensReachTheirAccountStep(Run(EMPTY, actions[..n]), actions[n]);
    }
  }

  /** The whole way of a mailed link: a login held back for a claimed account adds one mail, a link to the account's
      registered address, whose token, followed in time, enters that account through any unrelated steps. */
  lemma MailedLinkEnters(s: State, attempt: LoginAttempt, user: UserId, now: Time, settings: Settings,
                         before: seq<Action>, followed: Time)
    requires Inv(s) && FromHandlers(Login(attempt, now, settings)) && !settings.requireReauth
    requires attempt.key !in s.identities && HeldBack(s, attempt) && About(s, attempt, user)
    requires var s1 := Resolve(s, attempt, now, settings).0;
      AllFromHandlers(before) && AllUnrelated(s1, before, attempt.key, attempt.email)
    requires followed <= now + settings.Ttl()
    ensures var s1 := Resolve(s, attempt, now, settings).0; var link := ConfirmationLink(s.users[user].email, s.nextRequest);
      && s1.mails == s.mails + [link]
      && ConfirmPendingLink(Run(s1, before), link.token, followed).1 == Ok(LoggedIn(user))
  {
    HeldBackWrites(s, attempt, user, now, settings);
    LoginIsHeldBackIff(s, attempt, now, settings);
    LinkRoundTrip(s, attempt, now, settings, before, Confirm(s.nextRequest, followed), [], now, settings);
  }
}
