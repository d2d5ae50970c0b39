/** The `profiles` table as the admin dashboards see it, the user list they
    derive from it, and the list edits they make after a delete or a role
    change. */
module AdminUsers {
  import opened JsValues

  type UserId = string

  /** A `profiles` row: `id, username, role, created_at`. */
  datatype Profile = Profile(id: UserId, username: Option<string>, role: Option<string>, createdAt: string)

  /** An entry of the dashboards' user list. `lastSignIn` is present only in
      the newer dashboard's list. */
  datatype User = User(id: UserId, email: string, createdAt: string, role: string,
                       username: Option<string>, lastSignIn: Option<string>)

  /** A store error: its `code` and `message`. */
  datatype StoreError = StoreError(code: string, message: string)

  const NoEmail := "No disponible"
  const DefaultRole := "cashier"
  const NoSignInInfo := "Información no disponible"

  /** The row mapping of `fetchAllUsers` in src/componentes/Dashboard/AdminDashboard.js. */
  function ToUser(p: Profile): (u: User)
    ensures u.id == p.id && u.createdAt == p.createdAt && u.username == p.username && u.lastSignIn.None?
    ensures u.email == if Truthy(p.username) then p.username.value else NoEmail
    ensures u.role == if Truthy(p.role) then p.role.value else DefaultRole
  {
    User(p.id, Or(p.username, NoEmail), p.createdAt, Or(p.role, DefaultRole), p.username, None)
  }

  /** `profiles.map(...)` of the older dashboard. */
  function UsersOf(ps: seq<Profile>): (r: seq<User>)
    ensures |r| == |ps|
    ensures forall i :: 0 <= i < |ps| ==> r[i] == ToUser(ps[i])
  {
    seq(|ps|, i requires 0 <= i < |ps| => ToUser(ps[i]))
  }

  /** `profiles.map(...)` of the newer dashboard: the same defaults, plus a
      constant `last_sign_in_at`. */
  function FrontUsersOf(ps: seq<Profile>): (r: seq<User>)
    ensures |r| == |ps|
    ensures forall i :: 0 <= i < |ps| ==> r[i] == ToUser(ps[i]).(lastSignIn := Some(NoSignInInfo))
  {
    seq(|ps|, i requires 0 <= i < |ps| => ToUser(ps[i]).(lastSignIn := Some(NoSignInInfo)))
  }

  /** `users.filter(user => user.id !== id)`. */
  function RemoveUser(users: seq<User>, id: UserId): seq<User> {
    Filter(users, (u: User) => u.id != id)
  }

  /** `users.map(user => user.id === id ? { ...user, role } : user)`. */
  function SetRole(users: seq<User>, id: UserId, role: string): (r: seq<User>)
    ensures |r| == |users|
  {
    seq(|users|, i requires 0 <= i < |users| => if users[i].id == id then users[i].(role := role) else users[i])
  }

  /** `delete().eq('id', id)` on `profiles`. */
  function RemoveProfile(ps: seq<Profile>, id: UserId): seq<Profile> {
    Filter(ps, (p: Profile) => p.id != id)
  }

  /** `update({ role }).eq('id', id)` on `profiles`. */
  function SetProfileRole(ps: seq<Profile>, id: UserId, role: string): (r: seq<Profile>)
    ensures |r| == |ps|
    ensures forall i :: 0 <= i < |ps| ==> r[i].id == ps[i].id
    ensures forall i :: 0 <= i < |ps| ==> r[i] == if ps[i].id == id then ps[i].(role := Some(role)) else ps[i]
  {
    seq(|ps|, i requires 0 <= i < |ps| => if ps[i].id == id then ps[i].(role := Some(role)) else ps[i])
  }

  /** The first row with that id: what `.eq('id', id).single()` returns
      when the ids are unique. */
  function ProfileOf(ps: seq<Profile>, id: UserId): (r: Option<Profile>)
    ensures r.Some? ==> r.value in ps && r.value.id == id
  {
    if ps == [] then None
    else if ps[0].id == id then Some(ps[0])
    else ProfileOf(ps[1..], id)
  }

  /** The lookup finds a row exactly when the table has one with that id. */
  lemma {:induction false} ProfileOfFinds(ps: seq<Profile>, id: UserId)
    ensures ProfileOf(ps, id).Some? <==> exists i :: 0 <= i < |ps| && ps[i].id == id
  {
    if ps != [] {
      ProfileOfFinds(ps[1..], id);
      if ps[0].id != id {
        assert forall i :: 1 <= i < |ps| ==> ps[i] == ps[1..][i - 1];
      }
    }
  }

  /** After a role change the lookup finds the same row, with the new role. */
  lemma {:induction false} ProfileOfAfterRoleChange(ps: seq<Profile>, id: UserId, role: string)
    ensures ProfileOf(SetProfileRole(ps, id, role), id) ==
      if ProfileOf(ps, id).Some? then Some(ProfileOf(ps, id).value.(role := Some(role))) else None
  {
    if ps != [] {
      assert SetProfileRole(ps, id, role)[1..] == SetProfileRole(ps[1..], id, role);
      ProfileOfAfterRoleChange(ps[1..], id, role);
    }
  }

  // ---------------------------------------------------------------------------
  // Properties of the list edits

  /** Deleting keeps exactly the users with another id, in their order. */
  lemma RemoveUserSpec(users: seq<User>, id: UserId)
    ensures forall u :: u in RemoveUser(users, id) <==> u in users && u.id != id
    ensures Subsequence(RemoveUser(users, id), users)
  {
    FilterSpec(users, (u: User) => u.id != id);
  }

  /** A role change touches only the users with that id, and only their role. */
  lemma SetRoleSpec(users: seq<User>, id: UserId, role: string)
    ensures forall i :: 0 <= i < |users| && users[i].id != id ==> SetRole(users, id, role)[i] == users[i]
    ensures forall i :: 0 <= i < |users| && users[i].id == id ==>
      SetRole(users, id, role)[i] == users[i].(role := role) && SetRole(users, id, role)[i].role == role
  {
  }

  /** The list the dashboard keeps after a delete is the list a reload of the
      edited table would give. */
  lemma {:induction false} RemoveAgreesWithReload(ps: seq<Profile>, id: UserId)
    ensures UsersOf(RemoveProfile(ps, id)) == RemoveUser(UsersOf(ps), id)
    decreases |ps|
  {
    if ps != [] {
      var rest := RemoveProfile(ps[1..], id);
      RemoveAgreesWithReload(ps[1..], id);
      UsersOfCons(ps[0], ps[1..]);
      assert ps == [ps[0]] + ps[1..];
      RemoveUserCons(ToUser(ps[0]), UsersOf(ps[1..]), id);
      if ps[0].id != id {
        UsersOfCons(ps[0], rest);
      }
    }
  }

  lemma UsersOfCons(p: Profile, ps: seq<Profile>)
    ensures UsersOf([p] + ps) == [ToUser(p)] + UsersOf(ps)
  {
    var l, r := UsersOf([p] + ps), [ToUser(p)] + UsersOf(ps);
    forall i | 0 <= i < |l|
      ensures l[i] == r[i]
    {
      if i > 0 {
        assert ([p] + ps)[i] == ps[i - 1];
      }
    }
  }

  lemma RemoveUserCons(u: User, us: seq<User>, id: UserId)
    ensures RemoveUser([u] + us, id) == (if u.id != id then [u] else []) + RemoveUser(us, id)
  {
    assert ([u] + us)[1..] == us;
  }

  /** The list the dashboard keeps after a role change is the list a reload
      of the edited table would give. */
  lemma RoleChangeAgreesWithReload(ps: seq<Profile>, id: UserId, role: string)
    requires role != ""
    ensures UsersOf(SetProfileRole(ps, id, role)) == SetRole(UsersOf(ps), id, role)
  {
  }

  /** A role change by an empty role is not what a reload shows: the reload
      falls back to the default role. */
  lemma EmptyRoleReloadsAsDefault(ps: seq<Profile>, id: UserId, i: nat)
    requires i < |ps| && ps[i].id == id
    ensures UsersOf(SetProfileRole(ps, id, ""))[i].role == DefaultRole
  {
  }

  // ---------------------------------------------------------------------------
  // The store

  class ProfilesDb {
    var profiles: seq<Profile>

    /** `select('role').eq('id', id).single()`. */
    method ReadProfile(id: UserId, fail: bool) returns (r: Option<Profile>)
      ensures r == if fail then None else ProfileOf(profiles, id)
    {
      if fail {
        return None;
      }
      var i := 0;
      while i < |profiles|
        invariant 0 <= i <= |profiles|
        invariant ProfileOf(profiles[i..], id) == ProfileOf(profiles, id)
      {
        if profiles[i].id == id {
          return Some(profiles[i]);
        }
        assert profiles[i..][1..] == profiles[i + 1..];
        i := i + 1;
      }
      return None;
    }

    /** `select('id, username, role, created_at')`; rows come in table order. */
    method ReadAll(failure: Option<StoreError>) returns (r: Option<seq<Profile>>, err: Option<StoreError>)
      ensures failure.Some? ==> r.None? && err == failure
      ensures failure.None? ==> r == Some(profiles) && err.None?
    {
      if failure.Some? {
        return None, failure;
      }
      return Some(profiles), None;
    }

    /** `delete().eq('id', id)`. */
    method Delete(id: UserId, failure: Option<StoreError>) returns (err: Option<StoreError>)
      modifies this
      ensures err == failure
      ensures profiles == if failure.Some? then old(profiles) else RemoveProfile(old(profiles), id)
    {
      err := failure;
      if failure.None? {
        profiles := RemoveProfile(profiles, id);
      }
    }

    /** `update({ role }).eq('id', id).select()`: the updated row with that
        id, if there is one. */
    method UpdateRole(id: UserId, role: string, failure: Option<StoreError>)
      returns (err: Option<StoreError>, row: Option<Profile>)
      modifies this
      ensures err == failure
      ensures profiles == if failure.Some? then old(profiles) else SetProfileRole(old(profiles), id, role)
      ensures row == if failure.Some? then None else ProfileOf(profiles, id)
    {
      err := failure;
      row := None;
      if failure.None? {
        profiles := SetProfileRole(profiles, id, role);
        row := ReadProfile(id, false);
      }
    }
  }
}
