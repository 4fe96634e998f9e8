/** `UserService` (lib/services/userService.ts) as a class over the table it
    reads and writes. Each single-row store call is a map operation; each
    method is proved against its function in `UserTable`. */
module Service {
  import opened Wrappers
  import opened UserRecords
  import T = UserTable

  class UserService {
    var users: map<UserId, User>
    var nextId: nat

    /** The table as a value. */
    function State(): T.Store
      reads this
    {
      T.Store(users, nextId)
    }

    ghost predicate Valid()
      reads this
    {
      T.WellFormed(State())
    }

    constructor ()
      ensures Valid() && users == map[]
    {
      users, nextId := map[], 0;
    }

    /** `createUser`. */
    method CreateUser(data: T.NewUserData, salt: nat, now: string) returns (r: Result<PublicUser, ServiceError>)
      requires Valid()
      modifies this
      ensures Valid()
      ensures T.Step(r, State()) == T.CreateUser(old(State()), data, salt, now)
    {
      if T.EmailTaken(users, data.email) {
        return Err(UniqueViolation);
      }
      var u := T.NewUser(nextId, data, salt, now);
      users := users[nextId := u];
      nextId := nextId + 1;
      r := Ok(Sanitize(Load(u, Children)));
    }

    /** `getUserById`: the sanitised row with both children and the session
      list, or null. */
    method GetUserById(id: UserId) returns (r: Option<PublicUser>)
      requires Valid()
      ensures r.None? <==> id !in users
      ensures r.Some? ==> r.value == Sanitize(Load(users[id], ChildrenAndSessions))
    {
      if id in users {
        r := Some(Sanitize(Load(users[id], ChildrenAndSessions)));
      } else {
        r := None;
      }
    }

    /** `getUserByEmail`: the row with both children (not the session list),
      password included, or null. */
    method GetUserByEmail(email: string) returns (r: Option<Record>)
      requires Valid()
      ensures r.None? <==> !T.EmailTaken(users, email)
      ensures r.Some? ==> r.value.id in users && r.value == Load(users[r.value.id], Children) && r.value.email == email
    {
      var found := T.FindByEmail(users, email);
      if found.None? {
        return None;
      }
      r := Some(Load(found.value, Children));
    }

    /** `validatePassword`. */
    method ValidatePassword(email: string, password: string) returns (r: Result<Option<PublicUser>, ServiceError>)
      requires Valid()
      ensures r == T.ValidatePassword(State(), email, password)
    {
      var found := T.FindByEmail(users, email);
      if found.None? {
        return Ok(None);
      }
      var compared := Compare(password, found.value.password);
      if compared.Err? {
        return Err(compared.error);
      }
      if !compared.value {
        return Ok(None);
      }
      r := Ok(Some(Sanitize(Load(found.value, NoRelations))));
    }

    /** `updateUser` without its security branch. */
    method UpdateUser(id: UserId, patch: T.UserPatch, salt: nat) returns (r: Result<PublicUser, ServiceError>)
      requires Valid()
      modifies this
      ensures Valid()
      ensures T.Step(r, State()) == T.UpdateUser(old(State()), id, patch, salt)
    {
      if id !in users {
        return Err(RecordNotFound);
      }
      if patch.email.Some? && T.EmailTakenByOther(users, id, patch.email.value) {
        return Err(UniqueViolation);
      }
      var u := T.PatchedUser(users[id], patch, salt);
      users := users[id := u];
      r := Ok(Sanitize(Load(u, Children)));
    }

    /** `deleteUser`. */
    method DeleteUser(id: UserId) returns (r: Result<(), ServiceError>)
      requires Valid()
      modifies this
      ensures Valid()
      ensures T.Step(r, State()) == T.DeleteUser(old(State()), id)
    {
      if id !in users {
        return Err(RecordNotFound);
      }
      users := users - {id};
      r := Ok(());
    }

    /** `updateUserPreferences`. */
    method UpdateUserPreferences(id: UserId, patch: PreferencesPatch) returns (r: Result<Preferences, ServiceError>)
      requires Valid()
      modifies this
      ensures Valid()
      ensures T.Step(r, State()) == T.UpdateUserPreferences(old(State()), id, patch)
    {
      if id !in users || users[id].preferences.None? {
        return Err(Failed("Failed to update user preferences"));
      }
      var p := MergePreferences(users[id].preferences.value, patch);
      users := users[id := users[id].(preferences := Some(p))];
      r := Ok(p);
    }

    /** `updateUserSecurity`. */
    method UpdateUserSecurity(id: UserId, patch: SecurityPatch) returns (r: Result<Security, ServiceError>)
      requires Valid()
      modifies this
      ensures Valid()
      ensures T.Step(r, State()) == T.UpdateUserSecurity(old(State()), id, patch)
    {
      if id !in users || users[id].security.None? {
        return Err(Failed("Failed to update user security settings"));
      }
      var sec := MergeSecurity(users[id].security.value, patch);
      users := users[id := users[id].(security := Some(sec))];
      r := Ok(sec);
    }

    /** `createDefaultDevUser`. */
    method CreateDefaultDevUser(now: string) returns (r: Result<Record, ServiceError>)
      requires Valid()
      modifies this
      ensures Valid()
      ensures T.Step(r, State()) == T.CreateDefaultDevUser(old(State()), now)
    {
      if T.EmailTaken(users, T.DevEmail) {
        return Err(Failed("Failed to create development user"));
      }
      var u := T.DevUser(nextId, now);
      users := users[nextId := u];
      nextId := nextId + 1;
      r := Ok(Load(u, ChildrenAndSessions));
    }
  }
}
