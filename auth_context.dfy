/** The permission table and the stand-in session: the current user is the
    first user of the list, and a role string decides what that user may do. */
module AuthContext {
  import opened Common
  import opened Entities
  import LocalStorageService

  const EditorPermissions: set<string> :=
    {"view_products", "view_categories", "view_transactions", "add_transactions"}
  const ViewerPermissions: set<string> :=
    {"view_products", "view_categories", "view_transactions"}

  /** The session effect: whenever the user list is non-empty its first user
      becomes the current user; an empty list leaves the previous one. */
  function CurrentUser(previous: Option<User>, users: seq<User>): Option<User>
  {
    if |users| > 0 then Some(users[0]) else previous
  }

  /** `hasPermission(permission)` for the current user. */
  function HasPermission(current: Option<User>, permission: string): bool
  {
    match current
    case None => false
    case Some(u) =>
      if u.role == "Admin" then true
      else if u.role == "Editor" then permission in EditorPermissions
      else if u.role == "Viewer" then permission in ViewerPermissions
      else false
  }

  // ---------------------------------------------------------------------
  // An independent reading of the table: roles and permissions as levels
  // ---------------------------------------------------------------------

  /** Viewer < Editor < Admin; an unknown role has no level. */
  function RoleLevel(role: string): nat
  {
    if role == "Admin" then 3 else if role == "Editor" then 2 else if role == "Viewer" then 1 else 0
  }

  /** Viewing needs level 1, recording a movement level 2, anything else 3. */
  function PermissionLevel(permission: string): nat
  {
    if permission in {"view_products", "view_categories", "view_transactions"} then 1
    else if permission == "add_transactions" then 2
    else 3
  }

  /** The table is exactly "the role's level reaches the permission's level". */
  lemma PermissionsFollowLevels(u: User, permission: string)
    ensures HasPermission(Some(u), permission) <==>
              RoleLevel(u.role) > 0 && RoleLevel(u.role) >= PermissionLevel(permission)
  {
  }

  // ---------------------------------------------------------------------
  // The table, role by role
  // ---------------------------------------------------------------------

  lemma NoUserNoPermission(permission: string)
    ensures !HasPermission(None, permission)
  {
  }

  lemma AdminHasEveryPermission(u: User, permission: string)
    requires u.role == "Admin"
    ensures HasPermission(Some(u), permission)
  {
  }

  lemma EditorPermissionsExactly(u: User, permission: string)
    requires u.role == "Editor"
    ensures HasPermission(Some(u), permission) <==> permission in EditorPermissions
    ensures HasPermission(Some(u), "add_transactions")
    ensures !HasPermission(Some(u), "admin") && !HasPermission(Some(u), "view_reports")
  {
  }

  lemma ViewerPermissionsExactly(u: User, permission: string)
    requires u.role == "Viewer"
    ensures HasPermission(Some(u), permission) <==> permission in ViewerPermissions
    ensures !HasPermission(Some(u), "add_transactions")
  {
  }

  lemma UnknownRoleHasNoPermission(u: User, permission: string)
    requires u.role != "Admin" && u.role != "Editor" && u.role != "Viewer"
    ensures !HasPermission(Some(u), permission)
  {
  }

  /** Whatever a Viewer may do an Editor may do, and whatever an Editor may
      do an Admin may do. */
  lemma PermissionsAreMonotone(viewer: User, editor: User, admin: User, permission: string)
    requires viewer.role == "Viewer" && editor.role == "Editor" && admin.role == "Admin"
    ensures HasPermission(Some(viewer), permission) ==> HasPermission(Some(editor), permission)
    ensures HasPermission(Some(editor), permission) ==> HasPermission(Some(admin), permission)
  {
    PermissionsFollowLevels(viewer, permission);
    PermissionsFollowLevels(editor, permission);
    PermissionsFollowLevels(admin, permission);
  }

  // ---------------------------------------------------------------------
  // The session after a load
  // ---------------------------------------------------------------------

  /** After any load the current user is the first loaded user. */
  lemma CurrentUserAfterLoad(previous: Option<User>, s: LocalStorageService.StorageState, now: Timestamp)
    ensures CurrentUser(previous, LocalStorageService.LoadedData(s, now).users)
              == Some(LocalStorageService.LoadedData(s, now).users[0])
  {
    LocalStorageService.LoadAlwaysHasAUser(s, now);
  }

  /** On a first start the current user is the default administrator, who
      holds every permission. */
  lemma FirstStartIsAdmin(now: Timestamp, permission: string)
    ensures CurrentUser(None, LocalStorageService.LoadedData(LocalStorageService.EmptyStorage, now).users)
              == Some(LocalStorageService.DefaultUser())
    ensures HasPermission(Some(LocalStorageService.DefaultUser()), permission)
  {
  }
}
