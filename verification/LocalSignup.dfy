/** internal/auth/local_signup.go: the registration gate in front of the resolver. */
module LocalSignup {
  import opened Basics
  import opened Text
  import opened IdentityLinking
  import Passwords = LocalLogin

  /** A pending signup's raw token is drawn fresh for it, so its number stands for the token. */
  datatype Signup = Signup(email: string, hash: Passwords.PasswordHash, expiresAt: Time)

  /** `auth` is the resolver's tables, `credentials` the local passwords by account. */
  datatype Site = Site(
    auth: State,
    credentials: map<UserId, Passwords.PasswordHash>,
    signups: map<nat, Signup>,
    nextSignup: nat,
    verificationMails: seq<(string, nat)>)

  datatype SignupOutcome = SignedIn(user: UserId) | VerificationPending

  datatype SignupError = PasswordTooShort | Refused(error: AuthError) | DeleteFailed

  type SignupReply = Result<SignupOutcome, SignupError>

  function LocalAttempt(email: string): LoginAttempt {
    LoginAttempt(IdentityKey(Local, None, email), email, true, false)
  }

  function ResolveAndAttach(site: Site, email: string, hash: Passwords.PasswordHash, now: Time,
                            settings: Settings): (Site, SignupReply) {
    var (auth, reply) := Resolve(site.auth, LocalAttempt(email), now, settings);
    var site' := site.(auth := auth);
    match reply
    case Err(error) => (site', Err(Refused(error)))
    case Ok(PendingConfirmation) => (site', Ok(VerificationPending))
    case Ok(LoggedIn(user)) => (site'.(credentials := site.credentials[user := hash]), Ok(SignedIn(user)))
  }

  function StartSignup(site: Site, email: string, password: string, confirm: bool, now: Time,
                       settings: Settings): (Site, SignupReply) {
    if !Passwords.ValidPassword(password) then (site, Err(PasswordTooShort))
    else
      var hash := Passwords.Argon2id(password);
      if !confirm then ResolveAndAttach(site, email, hash, now, settings)
      else
        (site.(signups := site.signups[site.nextSignup := Signup(email, hash, now + settings.Ttl())],
               nextSignup := site.nextSignup + 1,
               verificationMails := site.verificationMails + [(email, site.nextSignup)]),
         Ok(VerificationPending))
  }

  /** A token whose resolution fails stays usable; one that got through is deleted, unless that fails: then the
      caller sees an error although the account and its password are there. */
  function VerifyEmail(site: Site, token: nat, now: Time, settings: Settings, fault: Fault): (Site, SignupReply) {
    if token !in site.signups then (site, Err(Refused(NotFound)))
    else if now > site.signups[token].expiresAt then (site, Err(Refused(TokenExpired)))
    else
      var signup := site.signups[token];
      var (site', reply) := ResolveAndAttach(site, signup.email, signup.hash, now, settings);
      if reply.Err? then (site', reply)
      else
        (if fault.TookEffect() then site'.(signups := site'.signups - {token}) else site',
         if fault == NoFault then reply else Err(DeleteFailed))
  }

  class SignupDesk {
    const resolver: Resolver
    var credentials: map<UserId, Passwords.PasswordHash>
    var signups: map<nat, Signup>
    var nextSignup: nat
    var verificationMails: seq<(string, nat)>

    constructor (resolver: Resolver)
      ensures this.resolver == resolver
      ensures Contents() == EMPTY_SITE.(auth := resolver.Tables())
    {
      this.resolver := resolver;
      credentials, signups, nextSignup, verificationMails := map[], map[], 0, [];
    }

    function Contents(): Site
      reads this, resolver
    {
      Site(resolver.Tables(), credentials, signups, nextSignup, verificationMails)
    }

    method Attach(email: string, hash: Passwords.PasswordHash, now: Time) returns (r: SignupReply)
      modifies this, resolver
      ensures (Contents(), r) == ResolveAndAttach(old(Contents()), email, hash, now, resolver.settings)
    {
      var reply := resolver.Login(LocalAttempt(email), now);
      match reply {
        case Err(error) => r := Err(Refused(error));
        case Ok(PendingConfirmation) => r := Ok(VerificationPending);
        case Ok(LoggedIn(user)) =>
          credentials := credentials[user := hash];
          r := Ok(SignedIn(user));
      }
    }

    method Start(email: string, password: string, confirm: bool, now: Time) returns (r: SignupReply)
      modifies this, resolver
      ensures (Contents(), r) == StartSignup(old(Contents()), email, password, confirm, now, resolver.settings)
    {
      if !Passwords.ValidPassword(password) {
        return Err(PasswordTooShort);
      }
      var hash := Passwords.Argon2id(password);
      if !confirm {
        r := Attach(email, hash, now);
        return;
      }
      var token := nextSignup;
      signups := signups[token := Signup(email, hash, now + resolver.settings.Ttl())];
      nextSignup := nextSignup + 1;
      verificationMails := verificationMails + [(email, token)];
      return Ok(VerificationPending);
    }

    /** `fault` says how deleting the pending record ends. */
    method Verify(token: nat, now: Time, fault: Fault) returns (r: SignupReply)
      modifies this, resolver
      ensures (Contents(), r) == VerifyEmail(old(Contents()), token, now, resolver.settings, fault)
    {
      if token !in signups {
        return Err(Refused(NotFound));
      }
      var signup := signups[token];
      if now > signup.expiresAt {
        return Err(Refused(TokenExpired));
      }
      r := Attach(signup.email, signup.hash, now);
      if r.Ok? {
        if fault.TookEffect() {
          signups := signups - {token};
        }
        if fault != NoFault {
          r := Err(DeleteFailed);
        }
      }
    }
  }

  // ----- Runs -----

  /** Other covers every resolver step that does not come through local signup. */
  datatype SiteAction =
    | Start(email: string, password: string, confirm: bool, now: Time, settings: Settings)
    | Verify(token: nat, now: Time, settings: Settings, fault: Fault)
    | Other(action: Action)

  function SiteStep(site: Site, a: SiteAction): Site {
    match a
    case Start(email, password, confirm, now, settings) => StartSignup(site, email, password, confirm, now, settings).0
    case Verify(token, now, settings, fault) => VerifyEmail(site, token, now, settings, fault).0
    case Other(action) => site.(auth := Step(site.auth, action))
  }

  function SiteRunFrom(site: Site, actions: seq<SiteAction>): Site {
    if actions == [] then site
    else SiteStep(SiteRunFrom(site, actions[..|actions| - 1]), actions[|actions| - 1])
  }

  const EMPTY_SITE := Site(EMPTY, map[], map[], 0, [])

  function SiteRun(actions: seq<SiteAction>): Site {
    SiteRunFrom(EMPTY_SITE, actions)
  }

  predicate SiteFromHandlers(a: SiteAction) {
    a.Other? ==> FromHandlers(a.action)
  }

  /** The resolver step a site action makes, if any. */
  function StepOf(site: Site, a: SiteAction): Option<Action> {
    match a
    case Start(email, password, confirm, now, settings) =>
      if Passwords.ValidPassword(password) && !confirm then Some(Action.Login(LocalAttempt(email), now, settings)) else None
    case Verify(token, now, settings, _) =>
      if token in site.signups && now <= site.signups[token].expiresAt
      then Some(Action.Login(LocalAttempt(site.signups[token].email), now, settings)) else None
    case Other(action) => Some(action)
  }

  /** The resolver steps a run of the whole site makes. */
  function ResolverSteps(actions: seq<SiteAction>): seq<Action> {
    if actions == [] then []
    else
      var n := |actions| - 1;
      match StepOf(SiteRun(actions[..n]), actions[n])
      case Some(action) => ResolverSteps(actions[..n]) + [action]
      case None => ResolverSteps(actions[..n])
  }

  lemma StepRefines(site: Site, a: SiteAction)
    ensures SiteStep(site, a).auth ==
            match StepOf(site, a) case Some(action) => Step(site.auth, action) case None => site.auth
    ensures SiteFromHandlers(a) && StepOf(site, a).Some? ==> FromHandlers(StepOf(site, a).value)
  {
  }

  /** Signup is a client of the resolver: seen through the identity tables, a run of the site is a run of the
      resolver whose local attempts all carry their email as subject, so every theorem about those applies. */
  lemma {:induction false} SiteRefinesResolver(actions: seq<SiteAction>)
    requires forall i :: 0 <= i < |actions| ==> SiteFromHandlers(actions[i])
    ensures SiteRun(actions).auth == Run(EMPTY, ResolverSteps(actions))
    ensures AllFromHandlers(ResolverSteps(actions))
    decreases |actions|
  {
    if actions != [] {
      var n := |actions| - 1;
      SiteRefinesResolver(actions[..n]);
      var site := SiteRun(actions[..n]);
      StepRefines(site, actions[n]);
      if StepOf(site, actions[n]).Some? {
        RunNext(ResolverSteps(actions[..n]), StepOf(site, actions[n]).value);
      }
    }
  }

  lemma RunNext(steps: seq<Action>, action: Action)
    ensures Run(EMPTY, steps + [action]) == Step(Run(EMPTY, steps), action)
  {
    assert (steps + [action])[..|steps|] == steps;
  }

  ghost predicate SignupsAreNumbered(site: Site) {
    forall token :: token in site.signups ==> token < site.nextSignup
  }

  lemma NumberedStep(site: Site, a: SiteAction)
    requires SignupsAreNumbered(site)
    ensures SignupsAreNumbered(SiteStep(site, a))
  {
  }

  lemma {:induction false} SignupsAreNumberedAlways(actions: seq<SiteAction>)
    ensures SignupsAreNumbered(SiteRun(actions))
  {
    if actions != [] {
      SignupsAreNumberedAlways(actions[..|actions| - 1]);
      NumberedStep(SiteRun(actions[..|actions| - 1]), actions[|actions| - 1]);
    }
  }

  /** Whether the link gets through to the resolver and beyond. */
  predicate LinkGetsThrough(site: Site, token: nat, now: Time) {
    token in site.signups && now <= site.signups[token].expiresAt
  }

  /** A password set through a verified link lands on the account whose email the link was mailed to and on no other,
      whether or not the pending record can then be deleted; the link is spent exactly if it is. */
  lemma VerifiedPasswordGoesToTheMailedAddress(actions: seq<SiteAction>, token: nat, now: Time, settings: Settings,
                                               fault: Fault)
    requires forall i :: 0 <= i < |actions| ==> SiteFromHandlers(actions[i])
    ensures var site := SiteRun(actions); var (site', reply) := VerifyEmail(site, token, now, settings, fault);
      && (reply.Ok? <==> LinkGetsThrough(site, token, now) && fault == NoFault)
      && (LinkGetsThrough(site, token, now) ==>
            var attempt := LocalAttempt(site.signups[token].email);
            var (auth, outcome) := Resolve(site.auth, attempt, now, settings);
            && outcome.Ok? && site'.auth == auth && (token !in site'.signups <==> fault.TookEffect())
            && (outcome.value.LoggedIn? ==>
                  var user := outcome.value.user;
                  && user in auth.users && EqualFold(auth.users[user].email, site.signups[token].email)
                  && site'.credentials == site.credentials[user := site.signups[token].hash])
            && (!outcome.value.LoggedIn? ==> site'.credentials == site.credentials))
      && (!LinkGetsThrough(site, token, now) ==> site' == site)
      && (reply == Err(Refused(NotFound)) <==> token !in site.signups)
      && (reply == Err(Refused(TokenExpired)) <==> token in site.signups && now > site.signups[token].expiresAt)
  {
    var site := SiteRun(actions);
    SiteRefinesResolver(actions);
    SignupsAreNumberedAlways(actions);
    if token in site.signups {
      LoginEntersOnlyItsOwnEmail(ResolverSteps(actions), LocalAttempt(site.signups[token].email), now, settings);
    }
  }

  // ----- What a pending signup does not do -----

  /** The link mailed for this number is not followed. */
  ghost predicate LinkUnused(actions: seq<SiteAction>, token: nat) {
    forall i :: 0 <= i < |actions| && actions[i].Verify? ==> actions[i].token != token
  }

  /** Two sites that differ at most in the pending record of one signup already numbered. */
  ghost predicate SameButFor(a: Site, b: Site, token: nat) {
    && a.auth == b.auth && a.credentials == b.credentials
    && a.nextSignup == b.nextSignup && a.verificationMails == b.verificationMails
    && a.signups - {token} == b.signups - {token}
    && token < a.nextSignup
  }

  lemma SameButForStart(a: Site, b: Site, token: nat, email: string, password: string, confirm: bool, now: Time,
                        settings: Settings)
    requires SameButFor(a, b, token)
    ensures SameButFor(StartSignup(a, email, password, confirm, now, settings).0,
                       StartSignup(b, email, password, confirm, now, settings).0, token)
  {
    var n, signup := a.nextSignup, Signup(email, Passwords.Argon2id(password), now + settings.Ttl());
    assert a.signups[n := signup] - {token} == (a.signups - {token})[n := signup];
    assert b.signups[n := signup] - {token} == (b.signups - {token})[n := signup];
  }

  lemma SameButForAttach(a: Site, b: Site, token: nat, email: string, hash: Passwords.PasswordHash, now: Time,
                         settings: Settings)
    requires SameButFor(a, b, token)
    ensures var (a', replyA) := ResolveAndAttach(a, email, hash, now, settings);
      var (b', replyB) := ResolveAndAttach(b, email, hash, now, settings);
      && SameButFor(a', b', token) && replyA == replyB
      && a'.signups == a.signups && b'.signups == b.signups
  {
  }

  lemma SameButForDelete(a: Site, b: Site, token: nat, other: nat)
    requires SameButFor(a, b, token)
    ensures SameButFor(a.(signups := a.signups - {other}), b.(signups := b.signups - {other}), token)
  {
    assert (a.signups - {other}) - {token} == (a.signups - {token}) - {other};
    assert (b.signups - {other}) - {token} == (b.signups - {token}) - {other};
  }

  lemma SameOtherSignup(a: Site, b: Site, token: nat, other: nat)
    requires SameButFor(a, b, token) && other != token
    ensures other in a.signups <==> other in b.signups
    ensures other in a.signups ==> a.signups[other] == b.signups[other]
  {
    assert other in a.signups <==> other in a.signups - {token};
    assert other in b.signups <==> other in b.signups - {token};
    if other in a.signups {
      assert a.signups[other] == (a.signups - {token})[other] == (b.signups - {token})[other];
    }
  }

  lemma SameButForVerify(a: Site, b: Site, token: nat, other: nat, now: Time, settings: Settings, fault: Fault)
    requires SameButFor(a, b, token) && other != token
    ensures SameButFor(VerifyEmail(a, other, now, settings, fault).0, VerifyEmail(b, other, now, settings, fault).0, token)
  {
    SameOtherSignup(a, b, token, other);
    if other in a.signups {
      var signup := a.signups[other];
      SameButForAttach(a, b, token, signup.email, signup.hash, now, settings);
      SameButForDelete(ResolveAndAttach(a, signup.email, signup.hash, now, settings).0,
                       ResolveAndAttach(b, signup.email, signup.hash, now, settings).0, token, other);
    }
  }

  lemma SameButForStep(a: Site, b: Site, token: nat, action: SiteAction)
    requires SameButFor(a, b, token) && (action.Verify? ==> action.token != token)
    ensures SameButFor(SiteStep(a, action), SiteStep(b, action), token)
  {
    match action
    case Start(email, password, confirm, now, settings) =>
      SameButForStart(a, b, token, email, password, confirm, now, settings);
    case Verify(other, now, settings, fault) => SameButForVerify(a, b, token, other, now, settings, fault);
    case Other(_) =>
  }

  lemma {:induction false} SameButForRun(a: Site, b: Site, token: nat, actions: seq<SiteAction>)
    requires SameButFor(a, b, token) && LinkUnused(actions, token)
    ensures SameButFor(SiteRunFrom(a, actions), SiteRunFrom(b, actions), token)
    decreases |actions|
  {
    if actions != [] {
      var n := |actions| - 1;
      assert |actions[..n]| == n && (actions[n].Verify? ==> actions[n].token != token);
      SameButForRun(a, b, token, actions[..n]);
      SameButForStep(SiteRunFrom(a, actions[..n]), SiteRunFrom(b, actions[..n]), token, actions[n]);
    }
  }

  /** With confirmation required, a signup has no effect on accounts, identities or passwords until its link is
      followed: on every continuation they are what they would be had its record never been stored. */
  lemma NothingBeforeTheLink(site: Site, email: string, password: string, now: Time, settings: Settings,
                             actions: seq<SiteAction>)
    requires LinkUnused(actions, site.nextSignup)
    ensures var signed := StartSignup(site, email, password, true, now, settings).0;
      var later, without := SiteRunFrom(signed, actions), SiteRunFrom(signed.(signups := site.signups), actions);
      && signed.auth == site.auth && signed.credentials == site.credentials
      && later.auth == without.auth && later.credentials == without.credentials
      && later.verificationMails == without.verificationMails
  {
    var signed := StartSignup(site, email, password, true, now, settings).0;
    if Passwords.ValidPassword(password) {
      assert signed.signups - {site.nextSignup} == site.signups - {site.nextSignup};
      SameButForRun(signed, signed.(signups := site.signups), site.nextSignup, actions);
    }
  }

  /** What a signup that waits for its link stores and mails: a record of this email and this password, good for one
      link lifetime, and one mail to that email with the record's number. A short password stores nothing. */
  lemma PendingSignupStores(site: Site, email: string, password: string, now: Time, settings: Settings)
    requires SignupsAreNumbered(site)
    ensures var (site', reply) := StartSignup(site, email, password, true, now, settings); var token := site.nextSignup;
      && (|password| < 8 <==> reply == Err(PasswordTooShort)) && (|password| < 8 ==> site' == site)
      && (|password| >= 8 ==>
            && reply == Ok(VerificationPending) && token !in site.signups
            && site'.verificationMails == site.verificationMails + [(email, token)]
            && site'.signups == site.signups[token := Signup(email, Passwords.Argon2id(password), now + settings.Ttl())])
  {
  }

  /** The record stays as it is until its link is followed. */
  lemma {:induction false} RecordStays(site: Site, token: nat, actions: seq<SiteAction>)
    requires token in site.signups && token < site.nextSignup && LinkUnused(actions, token)
    ensures var later := SiteRunFrom(site, actions);
      token in later.signups && later.signups[token] == site.signups[token] && token < later.nextSignup
    decreases |actions|
  {
    if actions != [] {
      var n := |actions| - 1;
      assert |actions[..n]| == n;
      RecordStays(site, token, actions[..n]);
      RecordStaysStep(SiteRunFrom(site, actions[..n]), token, actions[n]);
    }
  }

  lemma RecordStaysStep(site: Site, token: nat, a: SiteAction)
    requires token in site.signups && token < site.nextSignup && (a.Verify? ==> a.token != token)
    ensures var later := SiteStep(site, a);
      token in later.signups && later.signups[token] == site.signups[token] && token < later.nextSignup
  {
  }

  /** What following a link in time does, on every run: it signs in to the account of the record's email with exactly
      the password recorded, unless the email is claimed, and then it changes no password. */
  ghost predicate FollowedLink(site: Site, record: Signup, token: nat, followed: Time, settings: Settings) {
    var (after, reply) := VerifyEmail(site, token, followed, settings, NoFault);
    && reply.Ok?
    && (reply == Ok(VerificationPending) <==> HeldBack(site.auth, LocalAttempt(record.email)))
    && (reply == Ok(VerificationPending) ==> after.credentials == site.credentials)
    && (reply.value.SignedIn? ==>
          var user := reply.value.user;
          && user in after.auth.users && EqualFold(after.auth.users[user].email, record.email)
          && after.credentials == site.credentials[user := record.hash])
  }

  lemma LinkInTime(actions: seq<SiteAction>, record: Signup, token: nat, followed: Time, settings: Settings)
    requires forall i :: 0 <= i < |actions| ==> SiteFromHandlers(actions[i])
    requires token in SiteRun(actions).signups && SiteRun(actions).signups[token] == record
    requires followed <= record.expiresAt
    ensures FollowedLink(SiteRun(actions), record, token, followed, settings)
  {
    VerifiedPasswordGoesToTheMailedAddress(actions, token, followed, settings, NoFault);
    SiteInv(actions);
    LoginIsHeldBackIff(SiteRun(actions).auth, LocalAttempt(record.email), followed, settings);
  }

  /** The whole way of a confirmed signup: whatever happens in between, the mailed link followed in time signs in to the
      account of that email with exactly the password chosen, unless the email is claimed by then. */
  lemma SignupRoundTrip(history: seq<SiteAction>, email: string, password: string, now: Time, settings: Settings,
                        between: seq<SiteAction>, followed: Time, settings': Settings)
    requires Passwords.ValidPassword(password) && LinkUnused(between, SiteRun(history).nextSignup)
    requires (forall i :: 0 <= i < |history| ==> SiteFromHandlers(history[i]))
    requires (forall i :: 0 <= i < |between| ==> SiteFromHandlers(between[i]))
    requires followed <= now + settings.Ttl()
    ensures var site := SiteRun(history);
      var later := SiteRunFrom(StartSignup(site, email, password, true, now, settings).0, between);
      FollowedLink(later, Signup(email, Passwords.Argon2id(password), now + settings.Ttl()), site.nextSignup, followed,
                   settings')
  {
    var site := SiteRun(history);
    var start := Start(email, password, true, now, settings);
    var started := StartSignup(site, email, password, true, now, settings).0;
    var record := Signup(email, Passwords.Argon2id(password), now + settings.Ttl());
    SignupsAreNumberedAlways(history);
    PendingSignupStores(site, email, password, now, settings);
    RecordStays(started, site.nextSignup, between);
    RunThroughStart(history, start, between);
    FromHandlersThroughout(history, start, between);
    LinkInTime(history + [start] + between, record, site.nextSignup, followed, settings');
  }

  lemma RunThroughStart(history: seq<SiteAction>, a: SiteAction, between: seq<SiteAction>)
    ensures SiteRun(history + [a] + between) == SiteRunFrom(SiteStep(SiteRun(history), a), between)
  {
    assert (history + [a])[..|history|] == history;
    RunFromThere(history + [a], between);
  }

  lemma FromHandlersThroughout(history: seq<SiteAction>, a: SiteAction, between: seq<SiteAction>)
    requires (forall i :: 0 <= i < |history| ==> SiteFromHandlers(history[i])) && SiteFromHandlers(a)
    requires (forall i :: 0 <= i < |between| ==> SiteFromHandlers(between[i]))
    ensures var all := history + [a] + between; forall i :: 0 <= i < |all| ==> SiteFromHandlers(all[i])
  {
  }

  lemma {:induction false} RunFromThere(first: seq<SiteAction>, second: seq<SiteAction>)
    ensures SiteRun(first + second) == SiteRunFrom(SiteRun(first), second)
    decreases |second|
  {
    if second == [] {
      assert first + second == first;
    } else {
      var n := |second| - 1;
      assert |second[..n]| == n;
      assert (first + second)[..|first + second| - 1] == first + second[..n];
      RunFromThere(first, second[..n]);
    }
  }

  // ----- A link works once -----

  ghost predicate Spent(site: Site, token: nat) {
    token !in site.signups && token < site.nextSignup
  }

  lemma SpentStep(site: Site, token: nat, a: SiteAction)
    requires Spent(site, token)
    ensures Spent(SiteStep(site, a), token)
  {
  }

  lemma {:induction false} SpentForever(site: Site, token: nat, actions: seq<SiteAction>)
    requires Spent(site, token)
    ensures Spent(SiteRunFrom(site, actions), token)
    decreases |actions|
  {
    if actions != [] {
      var n := |actions| - 1;
      SpentForever(site, token, actions[..n]);
      SpentStep(SiteRunFrom(site, actions[..n]), token, actions[n]);
    }
  }

  /** A link that got through is refused on every continuation if and only if its record could be deleted. */
  lemma LinkWorksOnceIff(history: seq<SiteAction>, token: nat, now: Time, settings: Settings, fault: Fault)
    requires forall i :: 0 <= i < |history| ==> SiteFromHandlers(history[i])
    requires LinkGetsThrough(SiteRun(history), token, now)
    ensures RefusedForever(VerifyEmail(SiteRun(history), token, now, settings, fault).0, token) <==> fault.TookEffect()
  {
    var site := VerifyEmail(SiteRun(history), token, now, settings, fault).0;
    VerifiedPasswordGoesToTheMailedAddress(history, token, now, settings, fault);
    SignupsAreNumberedAlways(history);
    if fault.TookEffect() {
      forall actions ensures token !in SiteRunFrom(site, actions).signups {
        SpentForever(site, token, actions);
      }
    } else {
      assert SiteRunFrom(site, []) == site;
    }
  }

  /** No continuation leaves anything for the link to verify. */
  ghost predicate RefusedForever(site: Site, token: nat) {
    forall actions :: token !in SiteRunFrom(site, actions).signups
  }

  // ----- Signing up without confirmation with an email in use -----

  lemma SiteInv(actions: seq<SiteAction>)
    requires forall i :: 0 <= i < |actions| ==> SiteFromHandlers(actions[i])
    ensures Inv(SiteRun(actions).auth)
  {
    SiteRefinesResolver(actions);
    InvRun(ResolverSteps(actions));
  }

  /** Without confirmation, signing up with the email of an account somebody can already log in to is meant to be
      held back. On every reachable site it enters the account instead, and replaces its password, if and only if
      that account has a local identity spelt as the email. */
  lemma UnconfirmedSignupEntersIff(actions: seq<SiteAction>, user: UserId, email: string, password: string, now: Time,
                                   settings: Settings)
    requires forall i :: 0 <= i < |actions| ==> SiteFromHandlers(actions[i])
    requires Passwords.ValidPassword(password) && KeysOf(SiteRun(actions).auth, user) != {}
    ensures var site := SiteRun(actions);
      var (site', reply) := StartSignup(site, email, password, false, now, settings);
      && (reply == Ok(SignedIn(user)) <==> IdentityKey(Local, None, email) in KeysOf(site.auth, user))
      && (reply == Ok(SignedIn(user)) ==>
            site'.auth == site.auth && site'.credentials == site.credentials[user := Passwords.Argon2id(password)])
      && (reply != Ok(SignedIn(user)) ==>
            (user in site'.credentials <==> user in site.credentials)
            && (user in site.credentials ==> site'.credentials[user] == site.credentials[user]))
  {
    SiteInv(actions);
    var auth := SiteRun(actions).auth;
    var key :| key in KeysOf(auth, user);
    assert user in auth.users;
  }

  /** The failing run: two signups without confirmation for one email leave the second one's password. */
  lemma SecondSignupReplacesPassword(email: string, first: string, second: string, now: Time, settings: Settings)
    requires Passwords.ValidPassword(first) && Passwords.ValidPassword(second)
    ensures var site := SiteRun([Start(email, first, false, now, settings), Start(email, second, false, now, settings)]);
      && site.auth.users == map[0 := User(email, true)]
      && site.credentials == map[0 := Passwords.Argon2id(second)]
  {
    var a, b := Start(email, first, false, now, settings), Start(email, second, false, now, settings);
    assert [a, b][..1] == [a] && [a][..0] == [];
    var site := SiteStep(EMPTY_SITE, a);
    assert SiteRunFrom(EMPTY_SITE, [a][..0]) == EMPTY_SITE;
    assert SiteRunFrom(EMPTY_SITE, [a]) == site;
    var key := IdentityKey(Local, None, email);
    assert site.auth.identities == map[key := Identity(0, email)];
    assert SiteStep(site, b).auth == site.auth;
  }
}
