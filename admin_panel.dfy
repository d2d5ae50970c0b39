/** The admin dashboard of src/componentes/Dashboard/AdminDashboard.js:
    the user list, deleting a user and changing a user's role, with a
    per-user "updating" flag and a reload of the list after a failed role
    change. */
module AdminPanel {
  import opened JsValues
  import opened AdminUsers

  const Admin := "admin"
  const NoRights := "No tienes permisos para realizar esta acción"
  const NoRoleRights := "No tienes permisos para modificar roles"
  const NotUpdated := "El usuario no existe o no se pudo actualizar"
  const PermissionDeniedCode := "42501"
  const LoadPrefix := "Error al cargar usuarios: "
  const DeletePrefix := "Error al despedir usuario: "
  const UpdatePrefix := "Error al actualizar: "

  /** `currentUserRole === 'admin'`; `None` is a role that was never loaded. */
  predicate IsAdmin(currentRole: Option<string>) {
    currentRole == Some(Admin)
  }

  /** Why `updateUserRole` fails, if it does: the message it puts after
      "Error al actualizar: ". `failure` is the store's answer to the update. */
  function RoleUpdateError(currentRole: Option<string>, ps: seq<Profile>, id: UserId,
                           failure: Option<StoreError>): Option<string>
  {
    if !IsAdmin(currentRole) then Some(NoRights)
    else if failure.Some? then Some(if failure.value.code == PermissionDeniedCode then NoRoleRights else failure.value.message)
    else if ProfileOf(ps, id).None? then Some(NotUpdated)
    else None
  }

  /** A role change succeeds exactly when an admin asks, the store accepts
      the update and a row with that id exists; the store's permission code
      is reported with its own message. */
  lemma RoleUpdateErrorCases(currentRole: Option<string>, ps: seq<Profile>, id: UserId, failure: Option<StoreError>)
    ensures RoleUpdateError(currentRole, ps, id, failure).None? <==>
      IsAdmin(currentRole) && failure.None? && exists i :: 0 <= i < |ps| && ps[i].id == id
    ensures IsAdmin(currentRole) && failure.Some? && failure.value.code == PermissionDeniedCode ==>
      RoleUpdateError(currentRole, ps, id, failure) == Some(NoRoleRights)
    ensures !IsAdmin(currentRole) ==> RoleUpdateError(currentRole, ps, id, failure) == Some(NoRights)
  {
    ProfileOfFinds(ps, id);
  }

  /** Setting a user's flag and clearing it again leaves the other users'
      flags as they were. */
  lemma FlagCleared(before: map<UserId, bool>, during: map<UserId, bool>, id: UserId)
    requires during == before[id := true]
    ensures during[id := false] == before[id := false]
  {
  }

  class Panel {
    var users: seq<User>
    var error: Option<string>
    var currentRole: Option<string>
    var updating: map<UserId, bool>

    /** The list shows exactly what a reload of the table would show. */
    ghost predicate InSync(db: ProfilesDb)
      reads this, db
    {
      users == UsersOf(db.profiles)
    }

    /** `fetchAllUsers()`: its own failure is caught and reported. */
    method FetchAllUsers(db: ProfilesDb, failure: Option<StoreError>)
      modifies this`users, this`error
      ensures failure.None? ==> users == UsersOf(db.profiles) && error == old(error)
      ensures failure.Some? ==> users == old(users) && error == Some(LoadPrefix + failure.value.message)
    {
      var ps, err := db.ReadAll(failure);
      if err.Some? {
        error := Some(LoadPrefix + err.value.message);
        return;
      }
      users := UsersOf(ps.value);
    }

    /** `handleDeleteUser(userId)`; `confirmed` is the answer to the
        confirmation dialog and `failure` the store's answer to the delete. */
    method DeleteUser(db: ProfilesDb, userId: UserId, confirmed: bool, failure: Option<StoreError>)
      modifies this`users, this`error, db
      ensures !confirmed || !IsAdmin(currentRole) || failure.Some? ==>
        users == old(users) && db.profiles == old(db.profiles)
      ensures !confirmed ==> error == old(error)
      ensures confirmed && !IsAdmin(currentRole) ==> error == Some(DeletePrefix + NoRights)
      ensures confirmed && IsAdmin(currentRole) && failure.Some? ==> error == Some(DeletePrefix + failure.value.message)
      ensures confirmed && IsAdmin(currentRole) && failure.None? ==>
        && users == RemoveUser(old(users), userId)
        && db.profiles == RemoveProfile(old(db.profiles), userId)
        && error == old(error)
      ensures old(InSync(db)) ==> InSync(db)
    {
      if !confirmed {
        return;
      }
      if !IsAdmin(currentRole) {
        error := Some(DeletePrefix + NoRights);
        return;
      }
      var err := db.Delete(userId, failure);
      if err.Some? {
        error := Some(DeletePrefix + err.value.message);
        return;
      }
      RemoveAgreesWithReload(old(db.profiles), userId);
      users := RemoveUser(users, userId);
    }

    /** `updateUserRole(userId, newRole)`. `failure` is the store's answer to
        the update and `reloadFailure` its answer to the reload that follows
        a failed change. `busyAtRequest` is the user's flag as it stands when
        the request has come back: the request cannot touch the flags, so the
        flag set before it is still up. */
    method UpdateUserRole(db: ProfilesDb, userId: UserId, newRole: string,
                          failure: Option<StoreError>, reloadFailure: Option<StoreError>)
      returns (ghost busyAtRequest: bool)
      modifies this`users, this`error, this`updating, db
      ensures busyAtRequest
      ensures updating == old(updating)[userId := false]
      ensures db.profiles == if IsAdmin(currentRole) && failure.None? then SetProfileRole(old(db.profiles), userId, newRole)
                             else old(db.profiles)
      ensures var why := RoleUpdateError(currentRole, old(db.profiles), userId, failure);
        && (why.None? ==> users == SetRole(old(users), userId, newRole) && error.None?)
        && (why.Some? && reloadFailure.None? ==> users == UsersOf(db.profiles) && error == Some(UpdatePrefix + why.value))
        && (why.Some? && reloadFailure.Some? ==>
              users == old(users) && error == Some(LoadPrefix + reloadFailure.value.message))
      ensures newRole != "" && old(InSync(db)) && reloadFailure.None? ==> InSync(db)
    {
      error := None;
      updating := updating[userId := true];
      var why := RequestRoleChange(db, userId, newRole, failure);
      busyAtRequest := updating[userId];
      if why.Some? {
        error := Some(UpdatePrefix + why.value);
        FetchAllUsers(db, reloadFailure);
      }
      ghost var flags := updating;
      updating := updating[userId := false];
      FlagCleared(old(updating), flags, userId);
    }

    /** The `try` block of `updateUserRole`: the guard, the update and the
        local list edit; `why` is the message of what it throws. */
    method RequestRoleChange(db: ProfilesDb, userId: UserId, newRole: string, failure: Option<StoreError>)
      returns (why: Option<string>)
      modifies this`users, db
      ensures why == RoleUpdateError(currentRole, old(db.profiles), userId, failure)
      ensures db.profiles == if IsAdmin(currentRole) && failure.None? then SetProfileRole(old(db.profiles), userId, newRole)
                             else old(db.profiles)
      ensures users == if why.None? then SetRole(old(users), userId, newRole) else old(users)
      ensures newRole != "" && why.None? && old(InSync(db)) ==> InSync(db)
    {
      if !IsAdmin(currentRole) {
        return Some(NoRights);
      }
      ghost var ps0 := db.profiles;
      var err, row := db.UpdateRole(userId, newRole, failure);
      if err.Some? {
        return Some(if err.value.code == PermissionDeniedCode then NoRoleRights else err.value.message);
      }
      ProfileOfAfterRoleChange(ps0, userId, newRole);
      if row.None? {
        return Some(NotUpdated);
      }
      users := SetRole(users, userId, row.value.role.value);
      if newRole != "" {
        RoleChangeAgreesWithReload(ps0, userId, newRole);
      }
      return None;
    }
  }
}

/** The admin dashboard of frontend/src/componentes/Dashboard/AdminDashboard.js:
    the access check on entry, the user list and role changes. */
module FrontAdminPanel {
  import opened JsValues
  import opened AdminUsers
  import AdminPanel

  const NotSignedIn := "No autenticado"
  const NoProfile := "Perfil no encontrado"
  const NoRights := "Permisos insuficientes"
  const LoginRoute := "/login"
  const UnauthorizedRoute := "/unauthorized"

  /** Where `checkAdminAndFetch` ends. */
  datatype Entry = SentToLogin(message: string) | SentToUnauthorized(role: Option<string>) | Listed

  /** The entry decision for the signed-in user (`None` when there is none),
      the profiles table and the network's answers. */
  function EntryOf(authUser: Option<UserId>, ps: seq<Profile>, profileFail: bool,
                   loadFailure: Option<StoreError>): Entry
  {
    if authUser.None? then SentToLogin(NotSignedIn)
    else if profileFail || ProfileOf(ps, authUser.value).None? then SentToLogin(NoProfile)
    else if !AdminPanel.IsAdmin(ProfileOf(ps, authUser.value).value.role) then
      SentToUnauthorized(ProfileOf(ps, authUser.value).value.role)
    else if loadFailure.Some? then SentToLogin(loadFailure.value.message)
    else Listed
  }

  /** The list is loaded only for a signed-in user with a profile row that
      says `admin`; with every row of that user saying `admin`, and all
      queries answered, it is loaded. */
  lemma ListedOnlyForAdmins(authUser: Option<UserId>, ps: seq<Profile>, profileFail: bool, loadFailure: Option<StoreError>)
    ensures EntryOf(authUser, ps, profileFail, loadFailure).Listed? ==>
      authUser.Some? && exists i :: 0 <= i < |ps| && ps[i].id == authUser.value && ps[i].role == Some(AdminPanel.Admin)
    ensures && authUser.Some? && !profileFail && loadFailure.None?
            && (exists i :: 0 <= i < |ps| && ps[i].id == authUser.value)
            && (forall i :: 0 <= i < |ps| && ps[i].id == authUser.value ==> ps[i].role == Some(AdminPanel.Admin))
            ==> EntryOf(authUser, ps, profileFail, loadFailure).Listed?
  {
    if authUser.Some? {
      ProfileOfFinds(ps, authUser.value);
      var p := ProfileOf(ps, authUser.value);
      if p.Some? {
        var i :| 0 <= i < |ps| && ps[i] == p.value;
      }
    }
  }

  class Panel {
    var users: seq<User>
    var error: Option<string>
    var currentRole: Option<string>
    var loading: bool
    var route: Option<string>

    /** The list shows exactly what a reload of the table would show. */
    ghost predicate InSync(db: ProfilesDb)
      reads this, db
    {
      users == FrontUsersOf(db.profiles)
    }

    /** `checkAdminAndFetch()` on entry; `authUser` is the answer of
        `auth.getUser()`, `profileFail` whether the profile query errs and
        `loadFailure` the answer to the user-list query. */
    method CheckAdminAndFetch(db: ProfilesDb, authUser: Option<UserId>, profileFail: bool, loadFailure: Option<StoreError>)
      modifies this`users, this`error, this`currentRole, this`loading, this`route
      ensures !loading
      ensures var e := EntryOf(authUser, db.profiles, profileFail, loadFailure);
        && (e.SentToLogin? ==> route == Some(LoginRoute) && error == Some(e.message) && users == old(users))
        && (e.SentToLogin? && (authUser.None? || profileFail || ProfileOf(db.profiles, authUser.value).None?) ==>
              currentRole == old(currentRole))
        && (e.SentToLogin? && authUser.Some? && !profileFail && ProfileOf(db.profiles, authUser.value).Some? ==>
              currentRole == Some(AdminPanel.Admin))
        && (e.SentToUnauthorized? ==>
              && route == Some(UnauthorizedRoute) && currentRole == e.role
              && error == old(error) && users == old(users))
        && (e.Listed? ==> InSync(db) && route == old(route) && error == old(error)
                          && currentRole == Some(AdminPanel.Admin))
    {
      loading := true;
      if authUser.None? {
        error := Some(NotSignedIn);
        route := Some(LoginRoute);
        loading := false;
        return;
      }
      var profile := db.ReadProfile(authUser.value, profileFail);
      if profile.None? {
        error := Some(NoProfile);
        route := Some(LoginRoute);
        loading := false;
        return;
      }
      currentRole := profile.value.role;
      if !AdminPanel.IsAdmin(currentRole) {
        route := Some(UnauthorizedRoute);
        loading := false;
        return;
      }
      var ps, err := db.ReadAll(loadFailure);
      if err.Some? {
        error := Some(err.value.message);
        route := Some(LoginRoute);
      } else {
        users := FrontUsersOf(ps.value);
      }
      loading := false;
    }

    /** `updateUserRole(userId, newRole)`; `failure` is the store's answer to
        the update. */
    method UpdateUserRole(db: ProfilesDb, userId: UserId, newRole: string, failure: Option<StoreError>)
      modifies this`users, this`error, db
      ensures !AdminPanel.IsAdmin(currentRole) ==>
        error == Some(NoRights) && users == old(users) && db.profiles == old(db.profiles)
      ensures AdminPanel.IsAdmin(currentRole) && failure.Some? ==>
        error == Some(failure.value.message) && users == old(users) && db.profiles == old(db.profiles)
      ensures AdminPanel.IsAdmin(currentRole) && failure.None? ==>
        && error.None?
        && users == SetRole(old(users), userId, newRole)
        && db.profiles == SetProfileRole(old(db.profiles), userId, newRole)
      ensures newRole != "" && old(InSync(db)) ==> InSync(db)
    {
      error := None;
      if !AdminPanel.IsAdmin(currentRole) {
        error := Some(NoRights);
        return;
      }
      var err, _ := db.UpdateRole(userId, newRole, failure);
      if err.Some? {
        error := Some(err.value.message);
        return;
      }
      users := SetRole(users, userId, newRole);
    }
  }
}
