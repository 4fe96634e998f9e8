/** The user table as a value, and every operation of `UserService`
    (lib/services/userService.ts) as a function from the table before to its
    result and the table after. The store's own guarantees (a unique index on
    email, fresh ids, atomic create of a user with its children) are part of
    `WellFormed`. */
module UserTable {
  import opened Wrappers
  import opened UserRecords

  /** The rows by id; `nextId` stands for the store's id generator. */
  datatype Store = Store(users: map<UserId, User>, nextId: nat)

  /** An operation's result with the table it leaves behind. */
  datatype Step<T> = Step(result: T, store: Store)

  /** Each row sits under its own id, and no two rows share an email (the
      store's primary key and unique index). */
  ghost predicate Indexed(users: map<UserId, User>) {
    && (forall id :: id in users ==> users[id].id == id)
    && (forall a, b :: a in users && b in users && users[a].email == users[b].email ==> a == b)
  }

  ghost predicate WellFormed(s: Store) {
    && Indexed(s.users)
    && (forall id :: id in s.users ==> id < s.nextId)
    // the only unhashed password the service ever writes is the empty one
    && (forall id :: id in s.users && s.users[id].password.Plain? ==> s.users[id].password.text == "")
  }

  predicate EmailTaken(users: map<UserId, User>, email: string) {
    exists id | id in users :: users[id].email == email
  }

  /** `findUnique({ where: { email } })`. */
  function FindByEmail(users: map<UserId, User>, email: string): (r: Option<User>)
    requires Indexed(users)
    ensures r.None? <==> !EmailTaken(users, email)
    ensures r.Some? ==> r.value.id in users && users[r.value.id] == r.value && r.value.email == email
  {
    if EmailTaken(users, email) then
      var id :| id in users && users[id].email == email;
      Some(users[id])
    else
      None
  }

  /** With unique emails, the row a lookup finds is the only one with that email. */
  lemma FindByEmailIsTheOne(s: Store, id: UserId)
    requires WellFormed(s) && id in s.users
    ensures FindByEmail(s.users, s.users[id].email) == Some(s.users[id])
  {
  }

  /** The input of `createUser`: email, password and the profile columns given. */
  datatype NewUserData = NewUserData(email: string, password: string, profile: map<Field, string>)

  /** The row `createUser` writes: the password hashed, default preferences,
      and a security record with two-factor off and no sessions. */
  function NewUser(id: UserId, data: NewUserData, salt: nat, now: string): User {
    User(id, data.email, Hashed(Hash(data.password, salt)), data.profile,
         Some(DefaultPreferences), Some(Security(false, now, [])))
  }

  /** `createUser`. The store rejects an email already present. */
  function CreateUser(s: Store, data: NewUserData, salt: nat, now: string): (r: Step<Result<PublicUser, ServiceError>>)
    requires WellFormed(s)
    ensures WellFormed(r.store)
    ensures r.result.Err? <==> EmailTaken(s.users, data.email)
    ensures r.result.Err? ==> r.result.error == UniqueViolation && r.store == s
    ensures r.result.Ok? ==>
      && s.nextId !in s.users
      && r.store.users == s.users[s.nextId := NewUser(s.nextId, data, salt, now)]
      && r.result.value == Sanitize(Load(r.store.users[s.nextId], Children))
  {
    if EmailTaken(s.users, data.email) then
      Step(Err(UniqueViolation), s)
    else
      var u := NewUser(s.nextId, data, salt, now);
      Step(Ok(Sanitize(Load(u, Children))), Store(s.users[s.nextId := u], s.nextId + 1))
  }

  /** A created user gets the documented defaults, and its stored password is
      a digest of the given one, never the plaintext. */
  lemma CreatedUserDefaults(s: Store, data: NewUserData, salt: nat, now: string)
    requires WellFormed(s) && !EmailTaken(s.users, data.email)
    ensures var r := CreateUser(s, data, salt, now);
      && r.result.Ok?
      && var stored := r.store.users[r.result.value.id];
      && stored.email == data.email && stored.profile == data.profile
      && stored.preferences == Some(Preferences("system", true, true, true, true, false, false, false, "English"))
      && stored.security == Some(Security(false, now, []))
      && stored.password.Hashed? && Matches(data.password, stored.password.digest)
      && stored.password != Plain(data.password)
  {
  }

  /** `getUserById`: the sanitised row with both children and the session
      list, or null. */
  function GetUserById(s: Store, id: UserId): (r: Option<PublicUser>)
    ensures r.None? <==> id !in s.users
    ensures r.Some? ==> r.value == Sanitize(Load(s.users[id], ChildrenAndSessions))
  {
    if id in s.users then Some(Sanitize(Load(s.users[id], ChildrenAndSessions))) else None
  }

  /** A row with this email has no password. */
  ghost predicate PasswordUnset(users: map<UserId, User>, email: string) {
    exists id :: id in users && users[id].email == email && users[id].password.Unset?
  }

  /** `validatePassword`: null for an unknown email or a wrong password, the
      sanitised row for a right one; bcrypt's compare throws on a row without
      a password. The lookup has no `include`, so no relation is returned. */
  function ValidatePassword(s: Store, email: string, password: string): (r: Result<Option<PublicUser>, ServiceError>)
    requires WellFormed(s)
    ensures r.Ok? && r.value.Some? <==>
      exists id :: id in s.users && s.users[id].email == email
        && s.users[id].password.Hashed? && Matches(password, s.users[id].password.digest)
    ensures r.Ok? && r.value.Some? ==>
      exists id :: id in s.users && r.value.value == Sanitize(Load(s.users[id], NoRelations)) && s.users[id].email == email
    ensures r.Err? <==> PasswordUnset(s.users, email)
    ensures r.Err? ==> r.error == HashMissing
  {
    match FindByEmail(s.users, email)
    case None => Ok(None)
    case Some(u) =>
      match Compare(password, u.password)
      case Err(e) => Err(e)
      case Ok(valid) => if valid then Ok(Some(Sanitize(Load(u, NoRelations)))) else Ok(None)
  }

  /** An email no row has never validates, whatever the password. */
  lemma UnknownEmailIsNull(s: Store, email: string, password: string)
    requires WellFormed(s) && !EmailTaken(s.users, email)
    ensures ValidatePassword(s, email, password) == Ok(None)
  {
  }

  /** Right after `createUser({email: e, password: p})`,
      `validatePassword(e, p)` returns the new user, without its children. */
  lemma {:induction false} ValidateAfterCreate(s: Store, data: NewUserData, salt: nat, now: string)
    requires WellFormed(s) && !EmailTaken(s.users, data.email)
    ensures var r := CreateUser(s, data, salt, now);
      && r.result.Ok?
      && ValidatePassword(r.store, data.email, data.password)
         == Ok(Some(r.result.value.(preferences := Omitted, security := Omitted)))
  {
    var r := CreateUser(s, data, salt, now);
    FindByEmailIsTheOne(r.store, s.nextId);
  }

  /** The top-level part of an `updateUser` payload and its preferences
      child; each absent key is `undefined`. */
  datatype UserPatch = UserPatch(
    email: Option<string>,
    password: Option<string>,
    profile: map<Field, string>,
    preferences: Option<PreferencesPatch>)

  /** The password column after an update: a non-empty password is hashed,
      an empty one is falsy, so it is written as given. */
  function UpdatedCredential(current: Credential, supplied: Option<string>, salt: nat): Credential {
    match supplied
    case None => current
    case Some(p) => if p != "" then Hashed(Hash(p, salt)) else Plain(p)
  }

  /** The row `updateUser` writes over `u`. */
  function PatchedUser(u: User, patch: UserPatch, salt: nat): User {
    u.(email := patch.email.GetOr(u.email),
       password := UpdatedCredential(u.password, patch.password, salt),
       profile := u.profile + patch.profile,
       preferences := if patch.preferences.Some? then Some(UpsertPreferences(u.preferences, patch.preferences.value))
                      else u.preferences)
  }

  /** Another row already has `email`. */
  predicate EmailTakenByOther(users: map<UserId, User>, id: UserId, email: string) {
    exists other | other in users :: other != id && users[other].email == email
  }

  /** `updateUser` with its top-level and preferences parts. */
  function UpdateUser(s: Store, id: UserId, patch: UserPatch, salt: nat): (r: Step<Result<PublicUser, ServiceError>>)
    requires WellFormed(s)
    ensures WellFormed(r.store)
    ensures r.result.Err? ==> r.store == s
    ensures r.result == Err(RecordNotFound) <==> id !in s.users
    ensures r.result.Ok? <==>
      id in s.users && !(patch.email.Some? && EmailTakenByOther(s.users, id, patch.email.value))
    ensures r.result.Err? && id in s.users ==> r.result.error == UniqueViolation
    ensures r.result.Ok? ==>
      && r.store.users == s.users[id := PatchedUser(s.users[id], patch, salt)]
      && r.result.value == Sanitize(Load(r.store.users[id], Children))
      && r.store.nextId == s.nextId
  {
    if id !in s.users then
      Step(Err(RecordNotFound), s)
    else if patch.email.Some? && EmailTakenByOther(s.users, id, patch.email.value) then
      Step(Err(UniqueViolation), s)
    else
      var u := PatchedUser(s.users[id], patch, salt);
      Step(Ok(Sanitize(Load(u, Children))), s.(users := s.users[id := u]))
  }

  /** The password is re-hashed only when a non-empty one is supplied; the
      email and the profile columns are written as given and absent ones are
      kept. */
  lemma UpdatePasswordAndProfile(s: Store, id: UserId, patch: UserPatch, salt: nat)
    requires WellFormed(s) && id in s.users
    requires patch.email.None? || !EmailTakenByOther(s.users, id, patch.email.value)
    ensures var r := UpdateUser(s, id, patch, salt);
      var before, after := s.users[id], r.store.users[id];
      && r.result.Ok?
      && after.email == patch.email.GetOr(before.email)
      && (patch.password.None? ==> after.password == before.password)
      && (patch.password.Some? && patch.password.value != "" ==>
            after.password.Hashed? && Matches(patch.password.value, after.password.digest))
      && (forall f :: f in patch.profile ==> f in after.profile && after.profile[f] == patch.profile[f])
      && (forall f :: f !in patch.profile && f in before.profile ==> f in after.profile && after.profile[f] == before.profile[f])
  {
  }

  /** Preferences upsert: a missing child is created from the payload over the
      defaults; a present one changes only in the supplied keys. */
  lemma {:induction false} UpdatePreferencesUpsert(s: Store, id: UserId, patch: UserPatch, salt: nat, k: PrefKey)
    requires WellFormed(s) && id in s.users && patch.preferences.Some?
    requires UpdateUser(s, id, patch, salt).result.Ok?
    ensures var after := UpdateUser(s, id, patch, salt).store.users[id].preferences;
      var before, pp := s.users[id].preferences, patch.preferences.value;
      && after.Some?
      && (before.None? ==>
            PrefGet(after.value, k) ==
              if Supplied(pp, k).Some? && Supplied(pp, k) != Some(Text("")) then Supplied(pp, k).value
              else PrefGet(DefaultPreferences, k))
      && (before.Some? ==>
            PrefGet(after.value, k) ==
              if Supplied(pp, k).Some? then Supplied(pp, k).value else PrefGet(before.value, k))
  {
    var before, pp := s.users[id].preferences, patch.preferences.value;
    if before.None? {
      CreateTakesSuppliedOrDefault(pp, k);
    } else {
      MergeTouchesOnlySupplied(before.value, pp, k);
    }
  }

  /** Updating a user's password to the empty string writes it unhashed, and
      from then on no password validates for that user. */
  lemma {:induction false} EmptyPasswordLocksOut(s: Store, id: UserId, salt: nat, password: string)
    requires WellFormed(s) && id in s.users
    ensures var r := UpdateUser(s, id, UserPatch(None, Some(""), map[], None), salt);
      && r.result.Ok?
      && r.store.users[id].password == Plain("")
      && ValidatePassword(r.store, r.store.users[id].email, password) == Ok(None)
  {
    var r := UpdateUser(s, id, UserPatch(None, Some(""), map[], None), salt);
    FindByEmailIsTheOne(r.store, id);
  }

  /** `deleteUser`: the row goes; a missing row makes the store throw. */
  function DeleteUser(s: Store, id: UserId): (r: Step<Result<(), ServiceError>>)
    requires WellFormed(s)
    ensures WellFormed(r.store)
    ensures r.result.Err? <==> id !in s.users
    ensures r.result.Err? ==> r.result.error == RecordNotFound && r.store == s
    ensures r.result.Ok? ==> r.store.users == s.users - {id} && r.store.nextId == s.nextId
  {
    if id !in s.users then Step(Err(RecordNotFound), s)
    else Step(Ok(()), s.(users := s.users - {id}))
  }

  /** After `deleteUser(id)`, `getUserById(id)` is null and the other rows are untouched. */
  lemma DeleteThenGet(s: Store, id: UserId, other: UserId)
    requires WellFormed(s)
    ensures var t := DeleteUser(s, id).store;
      GetUserById(t, id).None? && (other != id ==> GetUserById(t, other) == GetUserById(s, other))
  {
  }

  /** `updateUserPreferences`: a nested update, which throws (and is rethrown
      with the service's message) when the user or its preferences are missing. */
  function UpdateUserPreferences(s: Store, id: UserId, patch: PreferencesPatch): (r: Step<Result<Preferences, ServiceError>>)
    requires WellFormed(s)
    ensures WellFormed(r.store)
    ensures r.result.Err? <==> id !in s.users || s.users[id].preferences.None?
    ensures r.result.Err? ==> r.result.error == Failed("Failed to update user preferences") && r.store == s
    ensures r.result.Ok? ==>
      && r.result.value == MergePreferences(s.users[id].preferences.value, patch)
      && r.store.users == s.users[id := s.users[id].(preferences := Some(r.result.value))]
      && r.store.nextId == s.nextId
  {
    if id !in s.users || s.users[id].preferences.None? then
      Step(Err(Failed("Failed to update user preferences")), s)
    else
      var u := s.users[id];
      var p := MergePreferences(u.preferences.value, patch);
      Step(Ok(p), s.(users := s.users[id := u.(preferences := Some(p))]))
  }

  /** `updateUserSecurity`: the same shape for the security child. */
  function UpdateUserSecurity(s: Store, id: UserId, patch: SecurityPatch): (r: Step<Result<Security, ServiceError>>)
    requires WellFormed(s)
    ensures WellFormed(r.store)
    ensures r.result.Err? <==> id !in s.users || s.users[id].security.None?
    ensures r.result.Err? ==> r.result.error == Failed("Failed to update user security settings") && r.store == s
    ensures r.result.Ok? ==>
      && r.result.value == MergeSecurity(s.users[id].security.value, patch)
      && r.store.users == s.users[id := s.users[id].(security := Some(r.result.value))]
      && r.store.nextId == s.nextId
  {
    if id !in s.users || s.users[id].security.None? then
      Step(Err(Failed("Failed to update user security settings")), s)
    else
      var u := s.users[id];
      var sec := MergeSecurity(u.security.value, patch);
      Step(Ok(sec), s.(users := s.users[id := u.(security := Some(sec))]))
  }

  /** Every row has both its preferences and its security child: both
      creators write them, and no operation removes one. */
  ghost predicate ChildrenPresent(s: Store) {
    forall id :: id in s.users ==> s.users[id].preferences.Some? && s.users[id].security.Some?
  }

  lemma CreateUserKeepsChildren(s: Store, data: NewUserData, salt: nat, now: string)
    requires WellFormed(s) && ChildrenPresent(s)
    ensures ChildrenPresent(CreateUser(s, data, salt, now).store)
  {
  }

  lemma UpdateUserKeepsChildren(s: Store, id: UserId, patch: UserPatch, salt: nat)
    requires WellFormed(s) && ChildrenPresent(s)
    ensures ChildrenPresent(UpdateUser(s, id, patch, salt).store)
  {
  }

  lemma DeleteUserKeepsChildren(s: Store, id: UserId)
    requires WellFormed(s) && ChildrenPresent(s)
    ensures ChildrenPresent(DeleteUser(s, id).store)
  {
  }

  lemma CreateDefaultDevUserKeepsChildren(s: Store, now: string)
    requires WellFormed(s) && ChildrenPresent(s)
    ensures ChildrenPresent(CreateDefaultDevUser(s, now).store)
  {
  }

  /** On a table whose rows all have both children, `updateUserPreferences`
      keeps that so, and fails only for an unknown id. */
  lemma UpdateUserPreferencesKeepsChildren(s: Store, id: UserId, patch: PreferencesPatch)
    requires WellFormed(s) && ChildrenPresent(s)
    ensures var r := UpdateUserPreferences(s, id, patch);
      ChildrenPresent(r.store) && (r.result.Err? <==> id !in s.users)
  {
  }

  /** The same for `updateUserSecurity`. */
  lemma UpdateUserSecurityKeepsChildren(s: Store, id: UserId, patch: SecurityPatch)
    requires WellFormed(s) && ChildrenPresent(s)
    ensures var r := UpdateUserSecurity(s, id, patch);
      ChildrenPresent(r.store) && (r.result.Err? <==> id !in s.users)
  {
  }

  /** The two narrow updates change only their own child record of their own
      user: every other row, and every other part of that row, is as before. */
  lemma {:induction false} NarrowUpdatesTouchOneChild(s: Store, id: UserId, pp: PreferencesPatch, sp: SecurityPatch)
    requires WellFormed(s)
    ensures var t := UpdateUserPreferences(s, id, pp).store;
      && t.users.Keys == s.users.Keys
      && (forall other :: other in s.users && other != id ==> t.users[other] == s.users[other])
      && (id in s.users ==> t.users[id].(preferences := s.users[id].preferences) == s.users[id])
    ensures var t := UpdateUserSecurity(s, id, sp).store;
      && t.users.Keys == s.users.Keys
      && (forall other :: other in s.users && other != id ==> t.users[other] == s.users[other])
      && (id in s.users ==> t.users[id].(security := s.users[id].security) == s.users[id])
  {
  }

  const DevEmail := "dev@example.com"

  /** The row `createDefaultDevUser` writes. It sets no password; the theme,
      which it omits, takes the column default "system". */
  function DevUser(id: UserId, now: string): User {
    User(id, DevEmail, Unset,
      map[Name := "Development User", Avatar := "/placeholder-user.jpg", Role := "Developer",
          Bio := "This is a development user account", Location := "Development",
          Website := "https://example.com", Company := "Dev Company", JoinDate := now,
          TwitterHandle := "@devuser", GithubHandle := "devuser", LinkedinHandle := "devuser"],
      Some(Preferences("system", true, true, true, true, true, false, false, "English")),
      Some(Security(false, now, [Session("Development Desktop", "Chrome", now, true)])))
  }

  /** `createDefaultDevUser`: creates the development user and returns the
      row with every relation loaded (not sanitised); a second call hits the
      unique index and is rethrown with the service's message. */
  function CreateDefaultDevUser(s: Store, now: string): (r: Step<Result<Record, ServiceError>>)
    requires WellFormed(s)
    ensures WellFormed(r.store)
    ensures r.result.Err? <==> EmailTaken(s.users, DevEmail)
    ensures r.result.Err? ==> r.result.error == Failed("Failed to create development user") && r.store == s
    ensures r.result.Ok? ==>
      && s.nextId !in s.users
      && r.store.users.Keys == s.users.Keys + {s.nextId}
      && (forall id :: id in s.users ==> r.store.users[id] == s.users[id])
      && r.store.users[s.nextId] == DevUser(s.nextId, now)
      && r.result.value == Load(r.store.users[s.nextId], ChildrenAndSessions)
      && r.result.value.id == s.nextId
      && r.result.value.email == DevEmail
      && r.result.value.password.Unset?
      && r.result.value.preferences.child.Some? && r.result.value.preferences.child.value.darkMode
      && r.result.value.security.child.Some?
      && r.result.value.security.child.value.sessions.Some?
      && |r.result.value.security.child.value.sessions.value| == 1
      && r.result.value.security.child.value.sessions.value[0].isActive
  {
    if EmailTaken(s.users, DevEmail) then
      Step(Err(Failed("Failed to create development user")), s)
    else
      var u := DevUser(s.nextId, now);
      Step(Ok(Load(u, ChildrenAndSessions)), Store(s.users[s.nextId := u], s.nextId + 1))
  }
}
