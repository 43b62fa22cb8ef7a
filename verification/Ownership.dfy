/** cmd/api/handlers_permissions.go, and who owns a short URL over every run of the services and the import. */
module Ownership {
  import opened Basics
  import opened Text
  import opened Permissions
  import opened ShortUrls
  import ClickEvents

  // ----- The tables under every operation -----

  datatype Action =
    | Create(native: ShortUrl)
    | Import(imported: ShortUrl, owner: Option<UserId>, total: Option<(int, nat)>)
    | Invite(actor: UserId, url: UrlId, email: string, role: Role)
    | Revoke(actor: UserId, url: UrlId, target: UserId)
    | AddUser(email: string)
    | CountClicks(url: UrlId, day: int, delta: nat)
    | Edit(url: UrlId, longUrl: string, title: string)

  predicate MayInvite(w: World, actor: UserId, id: UrlId, role: Role) {
    RoleOf(w, id, actor) == Some(Owner) && role != Owner
  }

  predicate MayRevoke(w: World, actor: UserId, id: UrlId, target: UserId) {
    && RoleOf(w, id, actor) == Some(Owner)
    && RoleOf(w, id, target).Some?
    && !WouldOrphanOwnership(RoleOf(w, id, target).value, |OwnersOf(w, id)|)
  }

  function Known(w: World, email: string): World {
    w.(users := EnsureUser(w.users, email))
  }

  function Invited(w: World, id: UrlId, email: string, role: Role): World {
    PutGrant(Known(w, email), id, FindUser(EnsureUser(w.users, email), email).value, role)
  }

  function Imported(w: World, url: ShortUrl, owner: Option<UserId>, total: Option<(int, nat)>): World {
    var id := |w.urls|;
    var w1 := PutUrl(w, url);
    var w2 := if owner.Some? then PutGrant(w1, id, owner.value, Owner) else w1;
    if total.Some? then PutTotal(w2, id, total.value.0, total.value.1) else w2
  }

  function Step(w: World, a: Action): World {
    match a
    case Create(url) => if url.source == Native && Insertable(w, url) then CreateOwned(w, url) else w
    case Import(url, owner, total) =>
      if url.source == YourlsImport && Insertable(w, url) && (owner.Some? ==> owner.value < |w.users|)
      then Imported(w, url, owner, total) else w
    case Invite(actor, id, email, role) => if MayInvite(w, actor, id, role) then Invited(w, id, email, role) else w
    case Revoke(actor, id, target) => if MayRevoke(w, actor, id, target) then DropGrant(w, id, target) else w
    case AddUser(email) => Known(w, email)
    case CountClicks(id, day, delta) =>
      w.(daily := ClickEvents.AddCount(w.daily, ClickEvents.DailyKey(id, day), delta))
    case Edit(id, longUrl, title) =>
      if id < |w.urls| then w.(urls := w.urls[id := w.urls[id].(longUrl := longUrl, title := title)]) else w
  }

  function Run(w: World, actions: seq<Action>): World {
    if actions == [] then w else Step(Run(w, actions[..|actions| - 1]), actions[|actions| - 1])
  }

  const EMPTY := World([], [], map[], map[])

  lemma RunOne(w: World, actions: seq<Action>, a: Action)
    ensures Run(w, actions + [a]) == Step(Run(w, actions), a)
  {
    assert (actions + [a])[..|actions|] == actions;
  }

  // ----- What one grant changes -----

  /** The user's role on the URL is `role` afterwards, and every other role, URL and count is as before. */
  ghost predicate OnlyRoleChanged(w: World, w': World, id: UrlId, user: UserId, role: Option<Role>) {
    && RoleOf(w', id, user) == role
    && (forall other: UrlId, u :: other != id || u != user ==> RoleOf(w', other, u) == RoleOf(w, other, u))
    && w'.urls == w.urls && w'.daily == w.daily && w.users <= w'.users
  }

  lemma PutGrantChangesOne(w: World, id: UrlId, user: UserId, role: Role)
    ensures OnlyRoleChanged(w, PutGrant(w, id, user, role), id, user, Some(role))
  {
  }

  lemma InvitedChangesOne(w: World, id: UrlId, email: string, role: Role)
    ensures var user := FindUser(EnsureUser(w.users, email), email);
      && user.Some? && user.value < |EnsureUser(w.users, email)|
      && EqualFold(EnsureUser(w.users, email)[user.value], email)
      && OnlyRoleChanged(w, Invited(w, id, email, role), id, user.value, Some(role))
  {
    FindEnsured(w.users, email);
    PutGrantChangesOne(Known(w, email), id, FindUser(EnsureUser(w.users, email), email).value, role);
  }

  lemma DropGrantChangesOne(w: World, id: UrlId, user: UserId)
    ensures OnlyRoleChanged(w, DropGrant(w, id, user), id, user, None)
  {
  }

  // ----- What each step changes -----

  ghost predicate CodeFree(w: World, url: ShortUrl) {
    && !IsReservedShortCode(url.code)
    && forall id :: 0 <= id < |w.urls| ==> w.urls[id].domain != url.domain || w.urls[id].code != url.code
  }

  /** A new row, after the others, on which `owner` alone holds something, and it is ownership. */
  ghost predicate OneUrlMore(w: World, w': World, url: ShortUrl, owner: Option<UserId>) {
    && w'.urls == w.urls + [url] && w'.users == w.users
    && forall id: UrlId, user: UserId ::
         RoleOf(w', id, user) == if id == |w.urls| && owner == Some(user) then Some(Owner) else RoleOf(w, id, user)
  }

  lemma CreateChanges(w: World, url: ShortUrl)
    ensures var w' := Step(w, Create(url));
      if url.source == Native && CodeFree(w, url) && url.createdBy < |w.users|
      then OneUrlMore(w, w', url, Some(url.createdBy)) && w'.daily == w.daily
      else w' == w
  {
  }

  lemma ImportChanges(w: World, url: ShortUrl, owner: Option<UserId>, total: Option<(int, nat)>)
    ensures var w' := Step(w, Import(url, owner, total));
      if url.source == YourlsImport && CodeFree(w, url) && url.createdBy < |w.users|
         && (owner.Some? ==> owner.value < |w.users|)
      then
        && OneUrlMore(w, w', url, owner)
        && forall key: ClickEvents.DailyKey :: ClickEvents.Total(w'.daily, key) ==
             if key.url == |w.urls| && total.Some? && key.day == total.value.0 then total.value.1
             else ClickEvents.Total(w.daily, key)
      else w' == w
  {
  }

  /** An invitation counts exactly if its sender owns the URL and it offers less than ownership. It sets that one
      role, of the user the email belongs to, and makes that user if nobody has the email. */
  lemma InviteChanges(w: World, actor: UserId, id: UrlId, email: string, role: Role)
    ensures var w' := Step(w, Invite(actor, id, email, role));
      if RoleOf(w, id, actor) == Some(Owner) && role in {Editor, Viewer}
      then
        && (exists user: UserId :: user < |w'.users| && EqualFold(w'.users[user], email)
                                   && OnlyRoleChanged(w, w', id, user, Some(role)))
        && w'.users == if exists u :: 0 <= u < |w.users| && EqualFold(w.users[u], email) then w.users else w.users + [email]
      else w' == w
  {
    EnsureUserIff(w.users, email);
    if MayInvite(w, actor, id, role) {
      InvitedChangesOne(w, id, email, role);
    }
  }

  /** A revocation counts exactly if its sender owns the URL, the target holds a role and is not the one owner. */
  lemma RevokeChanges(w: World, actor: UserId, id: UrlId, target: UserId)
    ensures var w' := Step(w, Revoke(actor, id, target));
      if RoleOf(w, id, actor) == Some(Owner) && RoleOf(w, id, target).Some? && OwnersOf(w, id) != {target}
      then OnlyRoleChanged(w, w', id, target, None) && w'.users == w.users
      else w' == w
  {
    SoleOwner(OwnersOf(w, id), target);
    DropGrantChangesOne(w, id, target);
  }

  lemma CountChanges(w: World, id: UrlId, day: int, delta: nat, key: ClickEvents.DailyKey)
    ensures var w' := Step(w, CountClicks(id, day, delta));
      && w' == w.(daily := w'.daily)
      && ClickEvents.Total(w'.daily, key) == ClickEvents.Total(w.daily, key)
                                             + if key.url == id && key.day == day then delta else 0
  {
  }

  lemma EditChanges(w: World, id: UrlId, longUrl: string, title: string)
    ensures var w' := Step(w, Edit(id, longUrl, title));
      && w' == w.(urls := w'.urls) && |w'.urls| == |w.urls|
      && (forall k :: 0 <= k < |w.urls| && k != id ==> w'.urls[k] == w.urls[k])
      && (id < |w.urls| ==>
            && w'.urls[id].longUrl == longUrl && w'.urls[id].title == title && w'.urls[id].code == w.urls[id].code
            && w'.urls[id] == w.urls[id].(longUrl := longUrl, title := title))
  {
  }

  // ----- The handlers -----

  datatype Subject = Subject(user: UserId, isSystemAdmin: bool)

  /** Co-ownership cannot be granted by invitation. */
  predicate Invitable(role: Option<Role>) {
    role == Some(Editor) || role == Some(Viewer)
  }

  datatype HandlerError = NoSuchUrl | BadRole | BadEmail | LastOwner | Internal

  class PermissionHandlers {
    const store: Store

    constructor (store: Store)
      ensures this.store == store
    {
      this.store := store;
    }

    /** Finds or makes the user with this email and sets their role; fails exactly if a call does. */
    method InviteUser(id: UrlId, email: string, role: Role) returns (r: Result<UserId, StoreError>)
      modifies store`world, store`faults
      ensures Follows(store.faults, old(store.faults)) && (r.Err? <==> !Succeeded(old(store.faults), store.faults))
      ensures r.Ok? ==>
                && store.world == Invited(old(store.world), id, email, role)
                && OnlyRoleChanged(old(store.world), store.world, id, r.value, Some(role))
                && r.value < |store.world.users| && EqualFold(store.world.users[r.value], email)
      ensures || store.world == old(store.world) || store.world == Known(old(store.world), email)
              || store.world == Invited(old(store.world), id, email, role)
    {
      var invitee := store.FindOrCreateUser(email);
      if invitee.Err? {
        return Err(invitee.error);
      }
      InvitedChangesOne(old(store.world), id, email, role);
      OneCallMore(old(store.faults), store.faults);
      var failed := store.Grant(id, invitee.value, role);
      return if failed then Err(Failed) else Ok(invitee.value);
    }

    /** POST a grant. `role` is None for any unknown word, `address` what the mail parser makes of the email. */
    method GrantPermission(subject: Subject, id: UrlId, role: Option<Role>, address: Option<string>)
      returns (r: Result<UserId, HandlerError>)
      modifies store`world, store`faults
      ensures r.Ok? ==> (
                && RoleOf(old(store.world), id, subject.user) == Some(Owner)
                && Invitable(role) && address.Some?
                && store.world == Step(old(store.world), Invite(subject.user, id, address.value, role.value))
                && OnlyRoleChanged(old(store.world), store.world, id, r.value, role)
                && r.value < |store.world.users| && EqualFold(store.world.users[r.value], address.value))
      ensures store.world == old(store.world) || (
                && Invitable(role) && address.Some?
                && RoleOf(old(store.world), id, subject.user) == Some(Owner)
                && (store.world == Step(old(store.world), AddUser(address.value)) ||
                    store.world == Step(old(store.world), Invite(subject.user, id, address.value, role.value))))
      ensures Follows(store.faults, old(store.faults))
      ensures r == Err(Internal) <==> !Succeeded(old(store.faults), store.faults)
      ensures r != Err(Internal) ==> (
                && (r.Ok? <==> RoleOf(old(store.world), id, subject.user) == Some(Owner)
                               && Invitable(role) && address.Some?)
                && (r == Err(NoSuchUrl) <==> RoleOf(old(store.world), id, subject.user) != Some(Owner))
                && (r == Err(BadRole) <==> RoleOf(old(store.world), id, subject.user) == Some(Owner)
                                           && !Invitable(role))
                && (r.Err? ==> store.world == old(store.world) && r.error in {NoSuchUrl, BadRole, BadEmail}))
    {
      NoCallYet(store.faults);
      OneCallMore(store.faults, store.faults);
      var own := store.FindGrant(id, subject.user);
      if own.Err? {
        return Err(Internal);
      }
      if !Permissions.Resolve(subject.isSystemAdmin, own.value).canManagePermissions {
        return Err(NoSuchUrl);
      }
      if !Invitable(role) {
        return Err(BadRole);
      }
      if address.None? {
        return Err(BadEmail);
      }
      ghost var before := store.faults;
      var invited := InviteUser(id, address.value, role.value);
      MoreCalls(old(store.faults), before, store.faults);
      return if invited.Ok? then Ok(invited.value) else Err(Internal);
    }

    /** DELETE a grant: refused for the last owner. */
    method RevokePermission(subject: Subject, id: UrlId, target: UserId) returns (r: Result<(), HandlerError>)
      modifies store`world, store`faults
      ensures store.world in {old(store.world), Step(old(store.world), Revoke(subject.user, id, target))}
      ensures r.Ok? ==>
                && RoleOf(old(store.world), id, subject.user) == Some(Owner) && RoleOf(old(store.world), id, target).Some?
                && OwnersOf(old(store.world), id) != {target}
                && store.world == DropGrant(old(store.world), id, target)
                && OnlyRoleChanged(old(store.world), store.world, id, target, None)
      ensures OwnersOf(old(store.world), id) != {} ==> OwnersOf(store.world, id) != {}
      ensures Follows(store.faults, old(store.faults))
      ensures r == Err(Internal) <==> !Succeeded(old(store.faults), store.faults)
      ensures r != Err(Internal) ==> (
                && (r.Ok? <==> RoleOf(old(store.world), id, subject.user) == Some(Owner)
                               && RoleOf(old(store.world), id, target).Some?
                               && OwnersOf(old(store.world), id) != {target})
                && (r == Err(LastOwner) <==> RoleOf(old(store.world), id, subject.user) == Some(Owner)
                                             && OwnersOf(old(store.world), id) == {target})
                && (r.Err? ==> store.world == old(store.world) && r.error in {NoSuchUrl, LastOwner}))
    {
      NoCallYet(store.faults);
      OneCallMore(store.faults, store.faults);
      var own := store.FindGrant(id, subject.user);
      if own.Err? {
        return Err(Internal);
      }
      if !Permissions.Resolve(subject.isSystemAdmin, own.value).canManagePermissions {
        return Err(NoSuchUrl);
      }
      OneCallMore(old(store.faults), store.faults);
      var targetGrant := store.FindGrant(id, target);
      if targetGrant.Err? {
        return Err(Internal);
      }
      if targetGrant.value.None? {
        return Err(NoSuchUrl);
      }
      OneCallMore(old(store.faults), store.faults);
      var ownerCount := store.CountOwners(id);
      if ownerCount.Err? {
        return Err(Internal);
      }
      SoleOwner(OwnersOf(store.world, id), target);
      if WouldOrphanOwnership(targetGrant.value.value, ownerCount.value) {
        return Err(LastOwner);
      }
      assert subject.user in OwnersOf(store.world, id);
      WouldOrphanIsExact(GrantsOf(store.world, id), target, Viewer);
      DropGrantChangesOne(store.world, id, target);
      OneCallMore(old(store.faults), store.faults);
      var failed := store.Revoke(id, target);
      if failed {
        return Err(Internal);
      }
      return Ok(());
    }
  }

  lemma SoleOwner(owners: set<UserId>, target: UserId)
    ensures target in owners && |owners| <= 1 <==> owners == {target}
  {
    if target in owners && |owners| <= 1 {
      assert |owners - {target}| == 0;
      assert owners == {target};
    }
  }

  // ----- Invariants over every run -----

  ghost predicate CodesAreUnique(urls: seq<ShortUrl>) {
    forall i, j :: 0 <= i < j < |urls| ==> urls[i].domain != urls[j].domain || urls[i].code != urls[j].code
  }

  ghost predicate NoCodeIsReserved(urls: seq<ShortUrl>) {
    forall id :: 0 <= id < |urls| ==> !IsReservedShortCode(urls[id].code)
  }

  ghost predicate Inv(w: World) {
    && DistinctEmails(w.users)
    && CodesAreUnique(w.urls)
    && NoCodeIsReserved(w.urls)
    && (forall id :: id in w.grants ==> id < |w.urls|)
    && (forall id: UrlId, user :: user in GrantsOf(w, id) ==> user < |w.users|)
    && (forall id: UrlId :: |OwnersOf(w, id)| <= 1)
    && (forall id: UrlId :: id < |w.urls| && w.urls[id].source == Native ==> OwnersOf(w, id) <= {w.urls[id].createdBy})
  }

  /** The one step that takes a URL's last owner away: an accepted invitation of that owner to a lesser role,
      for which the guard against orphaning would have been raised had it been asked. */
  ghost predicate SkipsGuard(w: World, a: Action, id: UrlId) {
    && a.Invite? && a.url == id && MayInvite(w, a.actor, id, a.role)
    && var invitee := FindUser(w.users, a.email);
       invitee.Some? && RoleOf(w, id, invitee.value).Some?
       && WouldOrphanOwnership(RoleOf(w, id, invitee.value).value, |OwnersOf(w, id)|)
  }

  /** Whatever the state, a step leaves an owned URL without an owner exactly when it skips the guard. */
  lemma LastOwnerLostIff(w: World, a: Action, id: UrlId)
    requires OwnersOf(w, id) != {} && id < |w.urls|
    requires forall user :: user in GrantsOf(w, id) ==> user < |w.users|
    ensures OwnersOf(Step(w, a), id) == {} <==> SkipsGuard(w, a, id)
  {
    var grants := GrantsOf(w, id);
    match a
    case Invite(actor, url, email, role) =>
      if url == id && MayInvite(w, actor, id, role) {
        var invitee := FindUser(EnsureUser(w.users, email), email).value;
        assert GrantsOf(Step(w, a), id) == grants[invitee := role];
        if invitee in grants {
          FindInKnown(w.users, email);
          WouldOrphanIsExact(grants, invitee, role);
        } else {
          var owner :| owner in Owners(grants);
          assert owner in Owners(grants[invitee := role]);
        }
      }
    case Revoke(actor, url, target) =>
      if url == id && MayRevoke(w, actor, id, target) {
        WouldOrphanIsExact(grants, target, Viewer);
      }
    case _ =>
  }

  /** No step adds an owner to a URL that exists. */
  lemma OwnersNeverGrow(w: World, a: Action, id: UrlId)
    requires id < |w.urls|
    ensures OwnersOf(Step(w, a), id) <= OwnersOf(w, id)
  {
  }

  /** The owners a URL is born with. */
  function FirstOwners(a: Action): set<UserId> {
    match a
    case Create(url) => {url.createdBy}
    case Import(url, owner, total) => if owner.Some? then {owner.value} else {}
    case _ => {}
  }

  lemma OwnersAfterStep(w: World, a: Action, id: UrlId)
    requires Inv(w)
    ensures id < |w.urls| ==> OwnersOf(Step(w, a), id) == if SkipsGuard(w, a, id) then {} else OwnersOf(w, id)
    ensures id == |w.urls| < |Step(w, a).urls| ==> OwnersOf(Step(w, a), id) == FirstOwners(a)
    ensures id >= |Step(w, a).urls| ==> GrantsOf(Step(w, a), id) == map[]
  {
    if id < |w.urls| {
      OwnersNeverGrow(w, a, id);
      if OwnersOf(w, id) != {} {
        LastOwnerLostIff(w, a, id);
        SmallSubset(OwnersOf(Step(w, a), id), OwnersOf(w, id));
      }
    }
  }

  lemma SmallSubset(part: set<UserId>, whole: set<UserId>)
    requires part <= whole && |whole| <= 1
    ensures part == {} || part == whole
  {
    if user :| user in whole {
      assert |whole - {user}| == 0;
      assert whole == {user};
    }
  }

  lemma OwnersStayOwners(w: World, a: Action, id: UrlId)
    requires Inv(w)
    ensures var w' := Step(w, a);
      && |OwnersOf(w', id)| <= 1
      && (id < |w'.urls| && w'.urls[id].source == Native ==> OwnersOf(w', id) <= {w'.urls[id].createdBy})
      && (id in w'.grants ==> id < |w'.urls|)
  {
    StepKeepsRows(w, a);
    OwnersAfterStep(w, a, id);
  }

  lemma InvStep(w: World, a: Action)
    requires Inv(w)
    ensures Inv(Step(w, a))
  {
    var w' := Step(w, a);
    StepKeepsRows(w, a);
    forall id: UrlId
      ensures |OwnersOf(w', id)| <= 1
      ensures id < |w'.urls| && w'.urls[id].source == Native ==> OwnersOf(w', id) <= {w'.urls[id].createdBy}
    {
      OwnersStayOwners(w, a, id);
    }
    GranteesAreUsers(w, a);
    match a {
      case Invite(actor, id, email, role) => EnsureKeepsDistinct(w.users, email);
      case AddUser(email) => EnsureKeepsDistinct(w.users, email);
      case _ =>
    }
  }

  lemma GranteesAreUsers(w: World, a: Action)
    requires Inv(w)
    ensures forall id: UrlId, user :: user in GrantsOf(Step(w, a), id) ==> user < |Step(w, a).users|
  {
    match a
    case Invite(actor, url, email, role) => InviteesAreUsers(w, actor, url, email, role);
    case _ =>
      var w' := Step(w, a);
      forall id: UrlId, user | user in GrantsOf(w', id) ensures user < |w'.users| {
        assert user in GrantsOf(w, id) || a.Create? || a.Import?;
      }
  }

  lemma InviteesAreUsers(w: World, actor: UserId, url: UrlId, email: string, role: Role)
    requires forall id: UrlId, user :: user in GrantsOf(w, id) ==> user < |w.users|
    ensures var w' := Step(w, Invite(actor, url, email, role));
      forall id: UrlId, user :: user in GrantsOf(w', id) ==> user < |w'.users|
  {
    var w' := Step(w, Invite(actor, url, email, role));
    InvitedChangesOne(w, url, email, role);
    forall id: UrlId, user: UserId | user in GrantsOf(w', id) ensures user < |w'.users| {
      assert RoleOf(w', id, user).Some?;
      assert RoleOf(w, id, user).Some? ==> user in GrantsOf(w, id);
    }
  }

  /** What never changes once a row exists, and what a new code must satisfy. */
  lemma StepKeepsRows(w: World, a: Action)
    requires CodesAreUnique(w.urls) && NoCodeIsReserved(w.urls)
    ensures var w' := Step(w, a);
      && w.users <= w'.users && |w.urls| <= |w'.urls|
      && (forall id :: 0 <= id < |w.urls| ==> SameRow(w.urls[id], w'.urls[id]))
      && CodesAreUnique(w'.urls) && NoCodeIsReserved(w'.urls)
  {
    match a
    case Create(url) => if Insertable(w, url) { UniqueWithOneMore(w.urls, url); }
    case Import(url, owner, total) => if Insertable(w, url) { UniqueWithOneMore(w.urls, url); }
    case Invite(actor, id, email, role) => FindInKnown(w.users, email);
    case Edit(id, longUrl, title) => SameCodes(w.urls, Step(w, a).urls);
    case _ =>
  }

  lemma SameCodes(urls: seq<ShortUrl>, urls': seq<ShortUrl>)
    requires |urls| == |urls'| && forall id :: 0 <= id < |urls| ==> SameRow(urls[id], urls'[id])
    requires CodesAreUnique(urls) && NoCodeIsReserved(urls)
    ensures CodesAreUnique(urls') && NoCodeIsReserved(urls')
  {
    forall i, j | 0 <= i < j < |urls'| ensures urls'[i].domain != urls'[j].domain || urls'[i].code != urls'[j].code {
      assert SameRow(urls[i], urls'[i]) && SameRow(urls[j], urls'[j]);
    }
    forall id | 0 <= id < |urls'| ensures !IsReservedShortCode(urls'[id].code) {
      assert SameRow(urls[id], urls'[id]);
    }
  }

  lemma UniqueWithOneMore(urls: seq<ShortUrl>, url: ShortUrl)
    requires CodesAreUnique(urls) && NoCodeIsReserved(urls)
    requires !Taken(urls, url.domain, url.code) && !IsReservedShortCode(url.code)
    ensures CodesAreUnique(urls + [url]) && NoCodeIsReserved(urls + [url])
  {
  }

  predicate SameRow(url: ShortUrl, url': ShortUrl) {
    && url.domain == url'.domain && url.code == url'.code
    && url.createdBy == url'.createdBy && url.createdAt == url'.createdAt && url.source == url'.source
  }

  /** In every reachable state codes are unique per domain, none is a reserved word in any letter case,
      no URL has two owners, and a native URL is owned by nobody but its creator. */
  lemma {:induction false} InvRun(w: World, actions: seq<Action>)
    requires Inv(w)
    ensures Inv(Run(w, actions))
    decreases |actions|
  {
    if actions != [] {
      var earlier := actions[..|actions| - 1];
      InvRun(w, earlier);
      InvStep(Run(w, earlier), actions[|actions| - 1]);
    }
  }

  lemma {:induction false} RunKeepsRows(w: World, actions: seq<Action>)
    requires Inv(w)
    ensures var w' := Run(w, actions);
      && w.users <= w'.users && |w.urls| <= |w'.urls|
      && forall id :: 0 <= id < |w.urls| ==> SameRow(w.urls[id], w'.urls[id])
    decreases |actions|
  {
    if actions != [] {
      var earlier := actions[..|actions| - 1];
      RunKeepsRows(w, earlier);
      InvRun(w, earlier);
      StepKeepsRows(Run(w, earlier), actions[|actions| - 1]);
    }
  }

  ghost predicate SkippedAt(w: World, actions: seq<Action>, id: UrlId, i: nat)
    requires i < |actions|
  {
    SkipsGuard(Run(w, actions[..i]), actions[i], id)
  }

  ghost predicate GuardSkippedIn(w: World, actions: seq<Action>, id: UrlId) {
    exists i: nat :: i < |actions| && SkippedAt(w, actions, id, i)
  }

  /** The owners of a URL are the same for ever, or are all lost at the first unguarded downgrade and never
      come back: no later grant, revocation, import or creation repairs the URL. */
  lemma {:induction false} OwnersOverARun(w: World, actions: seq<Action>, id: UrlId)
    requires Inv(w) && id < |w.urls|
    ensures OwnersOf(Run(w, actions), id) == if GuardSkippedIn(w, actions, id) then {} else OwnersOf(w, id)
    decreases |actions|
  {
    if actions != [] {
      var n := |actions| - 1;
      var earlier := actions[..n];
      OwnersOverARun(w, earlier, id);
      InvRun(w, earlier);
      RunKeepsRows(w, earlier);
      OwnersAfterStep(Run(w, earlier), actions[n], id);
      GuardSkippedSplit(w, actions, id);
    }
  }

  lemma GuardSkippedSplit(w: World, actions: seq<Action>, id: UrlId)
    requires actions != []
    ensures var n := |actions| - 1;
      GuardSkippedIn(w, actions, id) <==>
        GuardSkippedIn(w, actions[..n], id) || SkipsGuard(Run(w, actions[..n]), actions[n], id)
  {
    var n := |actions| - 1;
    var earlier := actions[..n];
    assert forall i :: 0 <= i <= n ==> earlier[..i] == actions[..i];
    assert forall i :: 0 <= i < |actions| ==> SkippedAt(w, actions, id, i) ==> i == n || SkippedAt(w, earlier, id, i);
    assert forall i :: 0 <= i < n ==> SkippedAt(w, earlier, id, i) ==> SkippedAt(w, actions, id, i);
    assert SkippedAt(w, actions, id, n) <==> SkipsGuard(Run(w, actions[..n]), actions[n], id);
  }

  /** A native URL belongs to its creator, or to nobody if an owner was lost. */
  predicate CreatorOrNobody(w: World, id: UrlId, lost: bool) {
    id < |w.urls| && w.urls[id].source == Native ==>
      OwnersOf(w, id) == if lost then {} else {w.urls[id].createdBy}
  }

  lemma CreatorOrNobodyStep(w: World, a: Action, id: UrlId, lost: bool)
    requires Inv(w) && CreatorOrNobody(w, id, lost) && (id >= |w.urls| ==> !lost)
    ensures CreatorOrNobody(Step(w, a), id, lost || SkipsGuard(w, a, id))
  {
    StepKeepsRows(w, a);
    OwnersAfterStep(w, a, id);
    if id >= |w.urls| {
      assert !SkipsGuard(w, a, id);
    }
  }

  /** Over every run of everything from empty tables, a native URL is owned by exactly its creator if no
      invitation demoted that creator, and by nobody otherwise. */
  lemma {:induction false} NativeUrlIsItsCreatorsIff(actions: seq<Action>, id: UrlId)
    ensures CreatorOrNobody(Run(EMPTY, actions), id, GuardSkippedIn(EMPTY, actions, id))
    decreases |actions|
  {
    if actions != [] {
      var n := |actions| - 1;
      var w := Run(EMPTY, actions[..n]);
      InvRun(EMPTY, actions[..n]);
      NativeUrlIsItsCreatorsIff(actions[..n], id);
      if id >= |w.urls| {
        NotSkippedBeforeBirth(actions[..n], id);
      }
      CreatorOrNobodyStep(w, actions[n], id, GuardSkippedIn(EMPTY, actions[..n], id));
      GuardSkippedSplit(EMPTY, actions, id);
    }
  }

  lemma {:induction false} NotSkippedBeforeBirth(actions: seq<Action>, id: UrlId)
    requires id >= |Run(EMPTY, actions).urls|
    ensures !GuardSkippedIn(EMPTY, actions, id) && GrantsOf(Run(EMPTY, actions), id) == map[]
    decreases |actions|
  {
    if actions != [] {
      var n := |actions| - 1;
      InvRun(EMPTY, actions[..n]);
      StepKeepsRows(Run(EMPTY, actions[..n]), actions[n]);
      NotSkippedBeforeBirth(actions[..n], id);
      OwnersAfterStep(Run(EMPTY, actions[..n]), actions[n], id);
      GuardSkippedSplit(EMPTY, actions, id);
    }
  }

  /** The failing step: a sole owner invites their own address as viewer, and the URL has no owner left. */
  lemma SoleOwnerInvitesThemselves(w: World, id: UrlId, owner: UserId)
    requires Inv(w) && id < |w.urls| && OwnersOf(w, id) == {owner}
    ensures OwnersOf(Step(w, Invite(owner, id, w.users[owner], Viewer)), id) == {}
  {
    var a := Invite(owner, id, w.users[owner], Viewer);
    assert owner in OwnersOf(w, id);
    FoundIfAny(w.users, w.users[owner]);
    assert FindUser(w.users, w.users[owner]) == Some(owner);
    assert SkipsGuard(w, a, id);
    OwnersAfterStep(w, a, id);
  }

  // ----- After a revocation -----

  /** An accepted invitation that reaches this user. */
  ghost predicate InvitesUser(w: World, a: Action, id: UrlId, user: UserId) {
    && a.Invite? && a.url == id && MayInvite(w, a.actor, id, a.role)
    && FindUser(EnsureUser(w.users, a.email), a.email) == Some(user)
  }

  lemma RoleAfterStep(w: World, a: Action, id: UrlId, user: UserId)
    requires id < |w.urls| && RoleOf(w, id, user).None?
    ensures RoleOf(Step(w, a), id, user).None? <==> !InvitesUser(w, a, id, user)
    ensures InvitesUser(w, a, id, user) ==> RoleOf(Step(w, a), id, user) == Some(a.role)
  {
    match a
    case Invite(actor, url, email, role) =>
      FindInKnown(w.users, email);
      PutGrantChangesOne(Known(w, email), url, FindUser(EnsureUser(w.users, email), email).value, role);
    case Revoke(actor, url, target) => DropGrantChangesOne(w, url, target);
    case _ =>
  }

  ghost predicate NeverInvited(w: World, actions: seq<Action>, id: UrlId, user: UserId) {
    forall i :: 0 <= i < |actions| ==> !InvitesUser(Run(w, actions[..i]), actions[i], id, user)
  }

  lemma NeverInvitedPrefix(w: World, actions: seq<Action>, id: UrlId, user: UserId)
    requires actions != [] && NeverInvited(w, actions, id, user)
    ensures var n := |actions| - 1;
      NeverInvited(w, actions[..n], id, user) && !InvitesUser(Run(w, actions[..n]), actions[n], id, user)
  {
    var n := |actions| - 1;
    assert forall i :: 0 <= i <= n ==> actions[..n][..i] == actions[..i];
  }

  /** Whoever holds no grant on a URL, after a revocation for instance, has none on any continuation until an accepted
      invitation reaches them, and so may neither edit, nor delete, nor manage it, administrator or not. */
  lemma {:induction false} NoGrantUntilInvited(w: World, actions: seq<Action>, id: UrlId, user: UserId, isSystemAdmin: bool)
    requires Inv(w) && id < |w.urls| && RoleOf(w, id, user).None? && NeverInvited(w, actions, id, user)
    ensures RoleOf(Run(w, actions), id, user).None?
    ensures var access := Permissions.Resolve(isSystemAdmin, RoleOf(Run(w, actions), id, user));
      !access.canEdit && !access.canDelete && !access.canManagePermissions
    decreases |actions|
  {
    if actions != [] {
      var n := |actions| - 1;
      assert |actions[..n]| == n;
      NeverInvitedPrefix(w, actions, id, user);
      NoGrantUntilInvited(w, actions[..n], id, user, isSystemAdmin);
      RunKeepsRows(w, actions[..n]);
      RoleAfterStep(Run(w, actions[..n]), actions[n], id, user);
    }
  }
}
