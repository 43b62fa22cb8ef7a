/** internal/shorturl/shorturl.go over the tables it shares with cmd/migrate-yourls and the permission
    handlers: users, short_urls, url_permissions and click_stats_daily. */
module ShortUrls {
  import opened Basics
  import opened Text
  import opened Permissions
  import ClickEvents

  type UrlId = nat
  type DomainId = nat

  datatype Source = Native | YourlsImport

  datatype ShortUrl = ShortUrl(
    domain: DomainId,
    code: string,
    longUrl: string,
    title: string,
    createdBy: UserId,
    createdAt: int,
    source: Source)

  /** Rows of users and short_urls are never deleted, so a row's position serves as its id. */
  datatype World = World(
    users: seq<string>,
    urls: seq<ShortUrl>,
    grants: map<UrlId, Grants>,
    daily: ClickEvents.Daily)

  // ----- Users -----

  /** SELECT ... FROM users WHERE email = $1, on a citext column. */
  function FindUser(users: seq<string>, email: string): (r: Option<UserId>)
    ensures r.Some? ==> r.value < |users| && EqualFold(users[r.value], email)
  {
    if users == [] then None
    else
      match FindUser(users[..|users| - 1], email)
      case Some(u) => Some(u)
      case None => if EqualFold(users[|users| - 1], email) then Some(|users| - 1) else None
  }

  ghost predicate DistinctEmails(users: seq<string>) {
    forall u, v :: 0 <= u < v < |users| ==> !EqualFold(users[u], users[v])
  }

  function EnsureUser(users: seq<string>, email: string): seq<string> {
    if FindUser(users, email).Some? then users else users + [email]
  }

  lemma {:induction false} FindUserInPrefix(users: seq<string>, later: seq<string>, email: string)
    requires users <= later && FindUser(users, email).Some?
    ensures FindUser(later, email) == FindUser(users, email)
    decreases |later|
  {
    if users == later {
    } else {
      FindUserInPrefix(users, later[..|later| - 1], email);
    }
  }

  lemma {:induction false} FindUserFolds(users: seq<string>, a: string, b: string)
    requires EqualFold(a, b)
    ensures FindUser(users, a) == FindUser(users, b)
    decreases |users|
  {
    if users != [] {
      FindUserFolds(users[..|users| - 1], a, b);
    }
  }

  lemma {:induction false} FoundIfAny(users: seq<string>, email: string)
    ensures FindUser(users, email).None? ==> forall u :: 0 <= u < |users| ==> !EqualFold(users[u], email)
    decreases |users|
  {
    if users != [] {
      FoundIfAny(users[..|users| - 1], email);
      assert forall u :: 0 <= u < |users| - 1 ==> users[..|users| - 1][u] == users[u];
    }
  }

  /** Finding or creating a user keeps emails distinct. */
  lemma EnsureKeepsDistinct(users: seq<string>, email: string)
    requires DistinctEmails(users)
    ensures DistinctEmails(EnsureUser(users, email))
  {
    FoundIfAny(users, email);
  }

  /** A user is found exactly by some spelling of their email, in any mix of cases, and so has the first row with it. */
  lemma FindUserIff(users: seq<string>, email: string, user: UserId)
    ensures FindUser(users, email) == Some(user) <==>
              user < |users| && EqualFold(users[user], email) && forall u :: 0 <= u < user ==> !EqualFold(users[u], email)
  {
    FoundIfAny(users, email);
    if user < |users| {
      FoundIfAny(users[..user], email);
      if FindUser(users[..user], email).Some? {
        FindUserInPrefix(users[..user], users, email);
      } else if EqualFold(users[user], email) {
        assert users[..user + 1][..user] == users[..user];
        FindUserInPrefix(users[..user + 1], users, email);
      }
    }
  }

  /** Only an email nobody has makes a user. */
  lemma EnsureUserIff(users: seq<string>, email: string)
    ensures EnsureUser(users, email) ==
            if exists u :: 0 <= u < |users| && EqualFold(users[u], email) then users else users + [email]
  {
    FoundIfAny(users, email);
  }

  lemma FindEnsured(users: seq<string>, email: string)
    ensures FindUser(EnsureUser(users, email), email).Some?
    ensures users <= EnsureUser(users, email)
  {
  }

  lemma FindInKnown(users: seq<string>, email: string)
    ensures var found := FindUser(EnsureUser(users, email), email);
      found.Some? && found == if FindUser(users, email).Some? then FindUser(users, email) else Some(|users|)
  {
    if FindUser(users, email).None? {
      assert (users + [email])[..|users|] == users;
    }
  }

  // ----- Short URLs and grants -----

  predicate Taken(urls: seq<ShortUrl>, domain: DomainId, code: string) {
    exists id :: 0 <= id < |urls| && urls[id].domain == domain && urls[id].code == code
  }

  function GrantsOf(w: World, id: UrlId): Grants {
    if id in w.grants then w.grants[id] else map[]
  }

  function OwnersOf(w: World, id: UrlId): set<UserId> {
    Owners(GrantsOf(w, id))
  }

  function RoleOf(w: World, id: UrlId, user: UserId): Option<Role> {
    if user in GrantsOf(w, id) then Some(GrantsOf(w, id)[user]) else None
  }

  function PutGrant(w: World, id: UrlId, user: UserId, role: Role): World {
    w.(grants := w.grants[id := GrantsOf(w, id)[user := role]])
  }

  function DropGrant(w: World, id: UrlId, user: UserId): World {
    w.(grants := w.grants[id := GrantsOf(w, id) - {user}])
  }

  function PutUrl(w: World, url: ShortUrl): World {
    w.(urls := w.urls + [url])
  }

  /** One transaction: the row and its creator's owner grant. */
  function CreateOwned(w: World, url: ShortUrl): World {
    PutGrant(PutUrl(w, url), |w.urls|, url.createdBy, Owner)
  }

  function PutTotal(w: World, id: UrlId, day: int, total: nat): World {
    w.(daily := w.daily[ClickEvents.DailyKey(id, day) := total])
  }

  // ----- Short codes -----

  const MAX_RANDOM_CODE_ATTEMPTS := 5
  const MAX_ALIAS_LENGTH := 64
  const RESERVED_ALIASES: set<string> := {"api", "app"}

  predicate IsReservedShortCode(code: string) {
    Fold(code) in RESERVED_ALIASES
  }

  /** A code is reserved exactly when some spelling of it, in any mix of cases, is a reserved word. */
  lemma ReservedInAnyLetterCase(code: string)
    ensures IsReservedShortCode(code) <==> EqualFold(code, "api") || EqualFold(code, "app")
  {
    assert Fold("api") == "api" && Fold("app") == "app";
  }

  /** A row that may be inserted: not a reserved word, free on its domain, created by a user. */
  predicate Insertable(w: World, url: ShortUrl) {
    !IsReservedShortCode(url.code) && !Taken(w.urls, url.domain, url.code) && url.createdBy < |w.users|
  }

  predicate AliasChar(c: char) {
    'A' <= c <= 'Z' || 'a' <= c <= 'z' || '0' <= c <= '9' || c == '_' || c == '.' || c == '-'
  }

  predicate MatchesAliasPattern(s: string) {
    1 <= |s| <= MAX_ALIAS_LENGTH && forall i :: 0 <= i < |s| ==> AliasChar(s[i])
  }

  datatype CreateError =
    | InvalidLongUrl | InvalidAlias | AliasTaken | InvalidSettings | GeneratorFailed | Exhausted | StoreFailed

  function NormalizeAlias(raw: string): Result<string, CreateError> {
    var alias := TrimSpace(raw);
    if !MatchesAliasPattern(alias) || IsReservedShortCode(alias) then Err(InvalidAlias) else Ok(alias)
  }

  /** Input is accepted as an alias exactly when it is that alias within white space, the alias is 1 to 64 letters,
      digits, dashes, underscores and dots, and no reserved word in any letter case. */
  lemma AliasIff(raw: string, alias: string)
    ensures NormalizeAlias(raw) == Ok(alias) <==>
              && 1 <= |alias| <= 64
              && (forall i :: 0 <= i < |alias| ==>
                    IsLetter(alias[i]) || '0' <= alias[i] <= '9' || alias[i] in {'_', '.', '-'})
              && !IsReservedShortCode(alias)
              && exists pre, post :: AllSpace(pre) && AllSpace(post) && raw == pre + alias + post
  {
    if MatchesAliasPattern(alias) {
      assert AliasChar(alias[0]) && AliasChar(alias[|alias| - 1]);
      if pre, post :| AllSpace(pre) && AllSpace(post) && raw == pre + alias + post {
        TrimSpaceOf(pre, alias, post);
      }
    }
    if NormalizeAlias(raw) == Ok(alias) {
      var pre, post := TrimSpaceSplits(raw);
    }
  }

  /** An accepted alias stands for every way of surrounding it with white space, and is its own normal form. */
  lemma NormalizeAliasIdempotent(raw: string)
    ensures var r := NormalizeAlias(raw);
      r.Ok? ==> NormalizeAlias(r.value) == r && MatchesAliasPattern(r.value) && !IsReservedShortCode(r.value)
  {
    var alias := TrimSpace(raw);
    if MatchesAliasPattern(alias) {
      assert AliasChar(alias[0]) && AliasChar(alias[|alias| - 1]);
      assert TrimSpace(alias) == alias;
    }
  }

  /** Draws `length` characters of the charset; `rolls` are the random numbers, None where the source fails. */
  method RandomCode(charset: string, length: int, rolls: nat -> Option<nat>) returns (r: Result<string, CreateError>)
    ensures r == Err(InvalidSettings) <==> charset == "" || length <= 0
    ensures r == Err(GeneratorFailed) <==> charset != "" && exists i: nat :: i < length && rolls(i).None?
    ensures r.Ok? ==> |r.value| == length && forall i :: 0 <= i < length ==>
              rolls(i).Some? && r.value[i] == charset[rolls(i).value % |charset|]
    ensures r.Err? ==> r.error in {InvalidSettings, GeneratorFailed}
  {
    if charset == "" || length <= 0 {
      return Err(InvalidSettings);
    }
    var code := new char[length](_ => ' ');
    var i: nat := 0;
    while i < length
      invariant i <= length
      invariant forall j: nat :: j < i ==> rolls(j).Some? && code[j] == charset[rolls(j).value % |charset|]
    {
      var n := rolls(i);
      if n.None? {
        return Err(GeneratorFailed);
      }
      code[i] := charset[n.value % |charset|];
      i := i + 1;
    }
    return Ok(code[..]);
  }

  // ----- The store -----

  datatype Settings = Settings(charset: string, length: int)

  datatype StoreError = NotFound | Collision | Failed

  /** PostgreSQL behind the stores. `faults` scripts how the coming calls end. */
  class Store {
    var world: World
    var faults: seq<Fault>
    var settings: Settings
    var createCalls: nat

    method TakeFault() returns (f: Fault)
      modifies this`faults
      ensures f == NextFault(old(faults)) && faults == LaterFaults(old(faults))
    {
      f := NextFault(faults);
      faults := LaterFaults(faults);
    }

    method FindUserByEmail(email: string) returns (r: Result<UserId, StoreError>)
      modifies this`faults
      ensures faults == LaterFaults(old(faults)) && (r == Err(Failed) <==> NextFault(old(faults)) != NoFault)
      ensures r.Ok? ==> FindUser(world.users, email) == Some(r.value)
      ensures r.Err? ==> r.error == Failed || (r.error == NotFound && FindUser(world.users, email).None?)
    {
      var f := TakeFault();
      if f != NoFault {
        return Err(Failed);
      }
      var found := FindUser(world.users, email);
      return if found.Some? then Ok(found.value) else Err(NotFound);
    }

    /** Refused when the email is in use. */
    method CreateUser(email: string) returns (r: Result<UserId, StoreError>)
      modifies this`world, this`faults
      ensures faults == LaterFaults(old(faults))
      ensures var f, known := NextFault(old(faults)), FindUser(old(world.users), email).Some?;
        && r == (if f == NoFault && !known then Ok(|old(world.users)|) else Err(Failed))
        && world == if f.TookEffect() && !known then old(world).(users := old(world.users) + [email]) else old(world)
    {
      var f := TakeFault();
      if f == FailedBefore || FindUser(world.users, email).Some? {
        return Err(Failed);
      }
      var id := |world.users|;
      world := world.(users := world.users + [email]);
      return if f == NoFault then Ok(id) else Err(Failed);
    }

    /** Finds the email's user, or makes one; fails exactly if a call does. */
    method FindOrCreateUser(email: string) returns (r: Result<UserId, StoreError>)
      modifies this`world, this`faults
      ensures Follows(faults, old(faults)) && (r.Err? <==> !Succeeded(old(faults), faults))
      ensures world.users in {old(world.users), EnsureUser(old(world.users), email)}
      ensures world == old(world).(users := world.users)
      ensures r.Ok? ==> world.users == EnsureUser(old(world.users), email) && FindUser(world.users, email) == Some(r.value)
    {
      FindInKnown(world.users, email);
      NoCallYet(faults);
      OneCallMore(faults, faults);
      r := FindUserByEmail(email);
      if r == Err(NotFound) {
        OneCallMore(old(faults), faults);
        r := CreateUser(email);
      }
    }

    method FindGrant(id: UrlId, user: UserId) returns (r: Result<Option<Role>, StoreError>)
      modifies this`faults
      ensures faults == LaterFaults(old(faults))
      ensures r == if NextFault(old(faults)) == NoFault then Ok(RoleOf(world, id, user)) else Err(Failed)
    {
      var f := TakeFault();
      return if f == NoFault then Ok(RoleOf(world, id, user)) else Err(Failed);
    }

    method CountOwners(id: UrlId) returns (r: Result<nat, StoreError>)
      modifies this`faults
      ensures faults == LaterFaults(old(faults))
      ensures r == if NextFault(old(faults)) == NoFault then Ok(|OwnersOf(world, id)|) else Err(Failed)
    {
      var f := TakeFault();
      return if f == NoFault then Ok(|OwnersOf(world, id)|) else Err(Failed);
    }

    /** INSERT ... ON CONFLICT (short_url_id, user_id) DO UPDATE SET role. */
    method Grant(id: UrlId, user: UserId, role: Role) returns (err: bool)
      modifies this`world, this`faults
      ensures faults == LaterFaults(old(faults)) && (err <==> NextFault(old(faults)) != NoFault)
      ensures world == if NextFault(old(faults)).TookEffect() then PutGrant(old(world), id, user, role) else old(world)
    {
      var f := TakeFault();
      err := f != NoFault;
      if f.TookEffect() {
        world := PutGrant(world, id, user, role);
      }
    }

    method Revoke(id: UrlId, user: UserId) returns (err: bool)
      modifies this`world, this`faults
      ensures faults == LaterFaults(old(faults)) && (err <==> NextFault(old(faults)) != NoFault)
      ensures world == if NextFault(old(faults)).TookEffect() then DropGrant(old(world), id, user) else old(world)
    {
      var f := TakeFault();
      err := f != NoFault;
      if f.TookEffect() {
        world := DropGrant(world, id, user);
      }
    }

    /** The import's plain INSERT, without a grant. */
    method InsertMigratedShortURL(url: ShortUrl) returns (r: Result<UrlId, StoreError>)
      modifies this`world, this`faults
      ensures faults == LaterFaults(old(faults))
      ensures var f, taken := NextFault(old(faults)), Taken(old(world.urls), url.domain, url.code);
        && world == (if f.TookEffect() && !taken then PutUrl(old(world), url) else old(world))
        && r == if f != NoFault then Err(Failed) else if taken then Err(Collision) else Ok(|old(world.urls)|)
    {
      var f := TakeFault();
      if f == FailedBefore {
        return Err(Failed);
      }
      if Taken(world.urls, url.domain, url.code) {
        return Err(if f == NoFault then Collision else Failed);
      }
      var id := |world.urls|;
      world := PutUrl(world, url);
      return if f == NoFault then Ok(id) else Err(Failed);
    }

    /** A plain INSERT: refused when the user already holds a grant on the URL. */
    method GrantOwner(id: UrlId, user: UserId) returns (err: bool)
      modifies this`world, this`faults
      ensures faults == LaterFaults(old(faults))
      ensures var f, ungranted := NextFault(old(faults)), RoleOf(old(world), id, user).None?;
        && (err <==> f != NoFault || !ungranted)
        && world == if f.TookEffect() && ungranted then PutGrant(old(world), id, user, Owner) else old(world)
    {
      var f := TakeFault();
      err := f != NoFault || RoleOf(world, id, user).Some?;
      if f.TookEffect() && RoleOf(world, id, user).None? {
        world := PutGrant(world, id, user, Owner);
      }
    }

    /** INSERT ... ON CONFLICT DO UPDATE SET click_count = EXCLUDED.click_count: overwrites. */
    method SetClickStatsTotal(id: UrlId, day: int, total: nat) returns (err: bool)
      modifies this`world, this`faults
      ensures faults == LaterFaults(old(faults)) && (err <==> NextFault(old(faults)) != NoFault)
      ensures world == if NextFault(old(faults)).TookEffect() then PutTotal(old(world), id, day, total) else old(world)
    {
      var f := TakeFault();
      err := f != NoFault;
      if f.TookEffect() {
        world := PutTotal(world, id, day, total);
      }
    }

    /** One transaction: the row and its creator's owner grant, or neither. The creator must be a user. */
    method CreateShortURL(url: ShortUrl) returns (r: Result<UrlId, StoreError>)
      modifies this`world, this`faults, this`createCalls
      ensures createCalls == old(createCalls) + 1 && faults == LaterFaults(old(faults))
      ensures var f, taken := NextFault(old(faults)), Taken(old(world.urls), url.domain, url.code);
        var refused := taken || url.createdBy >= |old(world.users)|;
        && world == (if f.TookEffect() && !refused then CreateOwned(old(world), url) else old(world))
        && r == if f == NoFault && taken then Err(Collision)
                else if f == NoFault && !refused then Ok(|old(world.urls)|)
                else Err(Failed)
    {
      createCalls := createCalls + 1;
      var f := TakeFault();
      if f == FailedBefore {
        return Err(Failed);
      }
      if Taken(world.urls, url.domain, url.code) {
        return Err(if f == NoFault then Collision else Failed);
      }
      if url.createdBy >= |world.users| {
        return Err(Failed);
      }
      var id := |world.urls|;
      world := CreateOwned(world, url);
      return if f == NoFault then Ok(id) else Err(Failed);
    }

    method ShortCodeSettings() returns (r: Result<Settings, StoreError>)
      modifies this`faults
      ensures faults == LaterFaults(old(faults))
      ensures r == if NextFault(old(faults)) == NoFault then Ok(settings) else Err(Failed)
    {
      var f := TakeFault();
      return if f == NoFault then Ok(settings) else Err(Failed);
    }
  }

  // ----- Creating a short URL -----

  datatype CreateInput = CreateInput(
    domain: DomainId,
    customAlias: string,
    longUrl: string,
    title: string,
    createdBy: UserId,
    now: int)

  function NativeUrl(input: CreateInput, code: string): ShortUrl {
    ShortUrl(input.domain, code, TrimSpace(input.longUrl), input.title, input.createdBy, input.now, Native)
  }

  /** The row made carries what the caller asked for, with the target trimmed, and belongs to them. */
  lemma CreatedRow(w: World, input: CreateInput, code: string)
    ensures var w', id := CreateOwned(w, NativeUrl(input, code)), |w.urls|;
      && |w'.urls| == id + 1 && w.urls <= w'.urls && w'.users == w.users && w'.daily == w.daily
      && RoleOf(w', id, input.createdBy) == Some(Owner)
      && var url := w'.urls[id];
         && url.domain == input.domain && url.code == code && url.longUrl == TrimSpace(input.longUrl)
         && url.title == input.title && url.createdBy == input.createdBy && url.createdAt == input.now
         && url.source == Native
  {
  }

  /** Whether attempt k draws a code that cannot be used: reserved, or in use on the domain. */
  predicate Unusable(urls: seq<ShortUrl>, domain: DomainId, drawn: Result<string, CreateError>) {
    drawn.Ok? && (IsReservedShortCode(drawn.value) || Taken(urls, domain, drawn.value))
  }

  /** Attempt k is the first whose draw is not rejected. */
  ghost predicate FirstAccepted(urls: seq<ShortUrl>, domain: DomainId, draws: nat -> Result<string, CreateError>,
                                k: nat) {
    && k < MAX_RANDOM_CODE_ATTEMPTS
    && !Unusable(urls, domain, draws(k))
    && AllUnusable(urls, domain, draws, k)
  }

  ghost predicate AllUnusable(urls: seq<ShortUrl>, domain: DomainId, draws: nat -> Result<string, CreateError>, n: nat) {
    forall j: nat :: j < n ==> Unusable(urls, domain, draws(j))
  }

  lemma OneMoreUnusable(urls: seq<ShortUrl>, domain: DomainId, draws: nat -> Result<string, CreateError>, n: nat)
    requires AllUnusable(urls, domain, draws, n) && Unusable(urls, domain, draws(n))
    ensures AllUnusable(urls, domain, draws, n + 1)
  {
  }

  /** Either nothing changed, or one row was made for this input, which is the one answered if any is. */
  ghost predicate AtMostOneUrlMore(w: World, w': World, input: CreateInput, r: Result<UrlId, CreateError>) {
    && (w' == w || exists code :: Insertable(w, NativeUrl(input, code)) && w' == CreateOwned(w, NativeUrl(input, code)))
    && (r.Ok? ==> r.value == |w.urls| && |w'.urls| == |w.urls| + 1)
    && (r.Err? && r.error != StoreFailed ==> w' == w)
  }

  /** A store error is reported if a call failed, and otherwise only for a creator who is no user. */
  ghost predicate StoreErrorsReported(w: World, faults: seq<Fault>, later: seq<Fault>, input: CreateInput,
                                      r: Result<UrlId, CreateError>) {
    && Follows(later, faults)
    && (!Succeeded(faults, later) ==> r == Err(StoreFailed))
    && (r == Err(StoreFailed) && input.createdBy < |w.users| ==> !Succeeded(faults, later))
  }

  /** How a creation with generated codes ends: with the first draw that is neither reserved nor in use, be it a code
      or an error of the generator, or with five draws that are. */
  ghost predicate Generated(w: World, w': World, domain: DomainId, draws: nat -> Result<string, CreateError>,
                            r: Result<UrlId, CreateError>) {
    && (r.Ok? ==> r.value < |w'.urls| && exists k: nat ::
          FirstAccepted(w.urls, domain, draws, k) && draws(k) == Ok(w'.urls[r.value].code))
    && (r.Err? && r.error in {InvalidSettings, GeneratorFailed} ==>
          exists k: nat :: FirstAccepted(w.urls, domain, draws, k) && draws(k) == Err(r.error))
    && (r == Err(Exhausted) ==> AllUnusable(w.urls, domain, draws, MAX_RANDOM_CODE_ATTEMPTS))
  }

  class Service {
    const store: Store

    constructor (store: Store)
      ensures this.store == store
    {
      this.store := store;
    }

    /** The attempts with generated codes. */
    method CreateGenerated(input: CreateInput, draws: nat -> Result<string, CreateError>)
      returns (r: Result<UrlId, CreateError>)
      requires forall k: nat :: draws(k).Err? ==> draws(k).error in {InvalidSettings, GeneratorFailed}
      modifies store`world, store`faults, store`createCalls
      ensures old(store.createCalls) <= store.createCalls <= old(store.createCalls) + MAX_RANDOM_CODE_ATTEMPTS
      ensures AtMostOneUrlMore(old(store.world), store.world, input, r)
      ensures StoreErrorsReported(old(store.world), old(store.faults), store.faults, input, r)
      ensures Generated(old(store.world), store.world, input.domain, draws, r)
      ensures r.Err? ==> r.error in {InvalidSettings, GeneratorFailed, Exhausted, StoreFailed}
    {
      NoCallYet(store.faults);
      var attempt: nat := 0;
      while attempt < MAX_RANDOM_CODE_ATTEMPTS
        invariant attempt <= MAX_RANDOM_CODE_ATTEMPTS
        invariant store.world == old(store.world)
        invariant Succeeded(old(store.faults), store.faults)
        invariant old(store.createCalls) <= store.createCalls <= old(store.createCalls) + attempt
        invariant AllUnusable(old(store.world.urls), input.domain, draws, attempt)
      {
        var code := draws(attempt);
        if code.Err? {
          assert FirstAccepted(old(store.world.urls), input.domain, draws, attempt);
          return Err(code.error);
        }
        if !IsReservedShortCode(code.value) {
          OneCallMore(old(store.faults), store.faults);
          var url := NativeUrl(input, code.value);
          assert url.code == code.value && url.domain == input.domain && url.createdBy == input.createdBy;
          var su := store.CreateShortURL(url);
          assert store.world != old(store.world) ==>
                   Insertable(old(store.world), url) && store.world == CreateOwned(old(store.world), url);
          if su != Err(Collision) {
            if su.Ok? {
              assert FirstAccepted(old(store.world.urls), input.domain, draws, attempt);
              return Ok(su.value);
            }
            return Err(StoreFailed);
          }
        }
        OneMoreUnusable(old(store.world.urls), input.domain, draws, attempt);
        attempt := attempt + 1;
      }
      return Err(Exhausted);
    }

    /** `absolute` is the URL parser's verdict on an absolute http(s) URL; `draws` is what the code generator
        answers at each attempt under given settings. */
    method Create(input: CreateInput, absolute: string -> bool, draws: Settings -> nat -> Result<string, CreateError>)
      returns (r: Result<UrlId, CreateError>)
      requires forall st: Settings, k: nat :: draws(st)(k).Err? ==> draws(st)(k).error in {InvalidSettings, GeneratorFailed}
      modifies store`world, store`faults, store`createCalls
      // At most five insert calls, and at most one row, never without its owner grant.
      ensures old(store.createCalls) <= store.createCalls <= old(store.createCalls) + MAX_RANDOM_CODE_ATTEMPTS
      ensures AtMostOneUrlMore(old(store.world), store.world, input, r)
      ensures StoreErrorsReported(old(store.world), old(store.faults), store.faults, input, r)
      // Input errors.
      ensures r == Err(InvalidLongUrl) <==> TrimSpace(input.longUrl) == "" || !absolute(TrimSpace(input.longUrl))
      ensures r != Err(InvalidLongUrl) && input.customAlias != "" ==>
                (r == Err(InvalidAlias) <==> NormalizeAlias(input.customAlias).Err?)
      // A custom alias is used as it is or refused.
      ensures r != Err(InvalidLongUrl) && input.customAlias != "" ==>
                && (r.Ok? ==> NormalizeAlias(input.customAlias) == Ok(store.world.urls[r.value].code))
                && (r.Err? ==> r.error in {InvalidAlias, AliasTaken, StoreFailed})
                && (r == Err(AliasTaken) ==>
                      && NormalizeAlias(input.customAlias).Ok?
                      && Taken(old(store.world.urls), input.domain, NormalizeAlias(input.customAlias).value))
      // A generated code is the first draw that is neither reserved nor in use.
      ensures r != Err(InvalidLongUrl) && input.customAlias == "" ==>
                && Generated(old(store.world), store.world, input.domain, draws(old(store.settings)), r)
                && (r.Err? ==> r.error in {InvalidSettings, GeneratorFailed, Exhausted, StoreFailed})
    {
      NoCallYet(store.faults);
      OneCallMore(store.faults, store.faults);
      var longUrl := TrimSpace(input.longUrl);
      if longUrl == "" || !absolute(longUrl) {
        return Err(InvalidLongUrl);
      }
      if input.customAlias != "" {
        var alias := NormalizeAlias(input.customAlias);
        if alias.Err? {
          return Err(InvalidAlias);
        }
        var su := store.CreateShortURL(NativeUrl(input, alias.value));
        if su == Err(Collision) {
          return Err(AliasTaken);
        }
        if su.Ok? {
          return Ok(su.value);
        }
        return Err(StoreFailed);
      }
      var settings := store.ShortCodeSettings();
      if settings.Err? {
        return Err(StoreFailed);
      }
      ghost var before := store.faults;
      r := CreateGenerated(input, draws(settings.value));
      MoreCalls(old(store.faults), before, store.faults);
    }
  }
}
