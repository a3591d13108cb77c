/**
 * The logged-in user of the web application: the permission predicates, the
 * per-object cache of the permissions row, and the gate that lets only active
 * users be loaded into a session.
 */
module Access {
  import opened Wrappers
  import opened Directory

  /** A row of the permissions view as a dictionary: column name to truthiness. */
  type PermissionRow = map<string, bool>

  /** The permissions view, keyed by user id. */
  type PermissionView = map<int, PermissionRow>

  const CanReceiveFlag: string := "can_receive"
  const CanForwardFlag: string := "can_forward"
  const CanApproveFlag: string := "can_approve"

  /** `get_user_permissions`: the user's row of the view, or an empty dictionary. */
  function PermissionsOf(view: PermissionView, id: int): (p: PermissionRow)
    ensures id !in view ==> p == map[]
    ensures id in view ==> p == view[id]
  {
    if id in view then view[id] else map[]
  }

  /** `perms.get(flag, False)`: a flag that is missing counts as not set. */
  predicate FlagSet(p: PermissionRow, flag: string) {
    flag in p && p[flag]
  }

  /** A `can_*` decision: superusers may do everything, others need the flag. */
  predicate Grants(isSuperuser: bool, p: PermissionRow, flag: string) {
    isSuperuser || FlagSet(p, flag)
  }

  /** The permissions `get_permissions` yields for a given cache content. */
  function Effective(cache: Option<PermissionRow>, view: PermissionView, id: int): (p: PermissionRow)
    ensures cache.Some? ==> p == cache.value
    ensures cache.None? ==> p == PermissionsOf(view, id)
  {
    match cache
    case Some(c) => c
    case None => PermissionsOf(view, id)
  }

  /** The gate of `load_user`: the row with that id, only if it is active. */
  function LoadUser(users: seq<UserRow>, id: int): (r: Option<UserRow>)
    ensures r.Some? ==> r.value in users && r.value.userId == id && r.value.isActive
    ensures UniqueIds(users) ==>
              (r.Some? <==> exists k :: 0 <= k < |users| && users[k].userId == id && users[k].isActive)
  {
    match FindUser(users, id)
    case None => None
    case Some(u) => if u.isActive then Some(u) else None
  }

  predicate UniqueIds(users: seq<UserRow>) {
    forall j, k :: 0 <= j < k < |users| ==> users[j].userId != users[k].userId
  }

  /** The session user object; `permissions` is the `_permissions` cache, None until first read. */
  class User {
    const id: int
    const username: string
    const fullName: string
    const isActive: bool
    const isSuperuser: bool
    var permissions: Option<PermissionRow>

    constructor (row: UserRow)
      ensures id == row.userId && username == row.username && fullName == row.fullName
      ensures isActive == row.isActive && isSuperuser == row.isSuperuser
      ensures permissions.None?
    {
      id, username, fullName := row.userId, row.username, row.fullName;
      isActive, isSuperuser := row.isActive, row.isSuperuser;
      permissions := None;
    }

    /** `can_manage_users`: superusers only, so a user manager passes every `can_*` check. */
    predicate CanManageUsers()
      reads this
      ensures CanManageUsers() ==> forall p: PermissionRow, flag: string :: Grants(isSuperuser, p, flag)
    {
      isSuperuser
    }

    /**
     * `get_permissions`: reads the view only while nothing is cached; afterwards the
     * cached row is returned unchanged, whatever the view now holds.
     */
    method GetPermissions(view: PermissionView) returns (p: PermissionRow)
      modifies this
      ensures p == Effective(old(permissions), view, id)
      ensures permissions == Some(p)
      ensures old(permissions).Some? ==> permissions == old(permissions)
    {
      if permissions.None? {
        permissions := Some(PermissionsOf(view, id));
      }
      p := permissions.value;
    }

    /**
     * The shared shape of `can_receive`, `can_forward` and `can_approve`: a
     * superuser short-circuits the `or` and the cache is not filled.
     */
    method Can(flag: string, view: PermissionView) returns (b: bool)
      modifies this
      ensures b == Grants(isSuperuser, Effective(old(permissions), view, id), flag)
      ensures isSuperuser ==> b && permissions == old(permissions)
      ensures !isSuperuser ==> permissions == Some(Effective(old(permissions), view, id))
    {
      if isSuperuser {
        return true;
      }
      var p := GetPermissions(view);
      b := flag in p && p[flag];
    }

    method CanReceive(view: PermissionView) returns (b: bool)
      modifies this
      ensures b == Grants(isSuperuser, Effective(old(permissions), view, id), CanReceiveFlag)
      ensures isSuperuser ==> permissions == old(permissions)
      ensures !isSuperuser ==> permissions == Some(Effective(old(permissions), view, id))
    {
      b := Can(CanReceiveFlag, view);
    }

    method CanForward(view: PermissionView) returns (b: bool)
      modifies this
      ensures b == Grants(isSuperuser, Effective(old(permissions), view, id), CanForwardFlag)
      ensures isSuperuser ==> permissions == old(permissions)
      ensures !isSuperuser ==> permissions == Some(Effective(old(permissions), view, id))
    {
      b := Can(CanForwardFlag, view);
    }

    method CanApprove(view: PermissionView) returns (b: bool)
      modifies this
      ensures b == Grants(isSuperuser, Effective(old(permissions), view, id), CanApproveFlag)
      ensures isSuperuser ==> permissions == old(permissions)
      ensures !isSuperuser ==> permissions == Some(Effective(old(permissions), view, id))
    {
      b := Can(CanApproveFlag, view);
    }
  }

  /**
   * Memoisation: once a non-superuser has been asked one question, later questions
   * are answered from the first row read, even when the view has changed since.
   */
  method AskTwice(u: User, flag: string, first: PermissionView, later: PermissionView)
    returns (a: bool, b: bool)
    requires u.permissions.None? && !u.isSuperuser
    modifies u
    ensures a == FlagSet(PermissionsOf(first, u.id), flag)
    ensures b == a
    ensures u.permissions == Some(PermissionsOf(first, u.id))
  {
    a := u.Can(flag, first);
    b := u.Can(flag, later);
  }
}
