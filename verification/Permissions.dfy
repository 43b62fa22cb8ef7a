/** internal/permission/shorturl.go: what one grant allows. */
module Permissions {
  import opened Basics

  type UserId = nat

  datatype Role = Owner | Editor | Viewer

  datatype Access = Access(
    visible: bool,
    canEdit: bool,
    canManagePermissions: bool,
    canDelete: bool,
    adminOverride: bool)

  const NO_ACCESS := Access(false, false, false, false, false)

  function AccessForRole(role: Role): Access {
    match role
    case Owner => Access(true, true, true, true, false)
    case Editor => Access(true, true, false, false, false)
    case Viewer => Access(true, false, false, false, false)
  }

  /** A grant of the subject's own always decides; being a system administrator only adds sight. */
  function Resolve(isSystemAdmin: bool, grant: Option<Role>): (access: Access)
    ensures access.canManagePermissions <==> grant == Some(Owner)
    ensures access.canDelete <==> grant == Some(Owner)
    ensures access.canEdit <==> grant == Some(Owner) || grant == Some(Editor)
    ensures access.visible <==> grant.Some? || isSystemAdmin
    ensures access.adminOverride <==> grant.None? && isSystemAdmin
  {
    if grant.Some? then AccessForRole(grant.value)
    else if isSystemAdmin then Access(true, false, false, false, true)
    else NO_ACCESS
  }

  predicate WouldOrphanOwnership(currentRole: Role, ownerCount: nat) {
    currentRole == Owner && ownerCount <= 1
  }

  /** The grants of one short URL. */
  type Grants = map<UserId, Role>

  function Owners(grants: Grants): set<UserId> {
    set user | user in grants && grants[user] == Owner
  }

  /** The guard is exact: on a URL that has an owner, it is raised precisely when taking the user's role away
      (or replacing it by a lesser one) leaves no owner. */
  lemma WouldOrphanIsExact(grants: Grants, user: UserId, lesser: Role)
    requires Owners(grants) != {} && user in grants && lesser != Owner
    ensures WouldOrphanOwnership(grants[user], |Owners(grants)|) <==> Owners(grants - {user}) == {}
    ensures WouldOrphanOwnership(grants[user], |Owners(grants)|) <==> Owners(grants[user := lesser]) == {}
  {
    var owners := Owners(grants);
    assert Owners(grants - {user}) == owners - {user};
    assert Owners(grants[user := lesser]) == owners - {user};
    if grants[user] == Owner {
      assert |owners - {user}| == |owners| - 1;
    } else {
      assert owners - {user} == owners;
    }
  }
}
