/** POST /users/login (app/api/users/login/route.ts): a read-only decision. */
module LoginRoute {
  import opened Wrappers
  import opened UserRecords
  import opened UserTable
  import opened Http
  import S = Service
  import RegisterRoute

  /** A user with this email whose stored password is a digest of `password`. */
  ghost predicate Credentials(s: Store, email: string, password: string) {
    exists id :: id in s.users && s.users[id].email == email
      && s.users[id].password.Hashed? && Matches(password, s.users[id].password.digest)
  }

  /** The handler as a function of the table: it has no table to give back. */
  function Login(s: Store, req: Request, storeFails: bool): (r: Response)
    requires WellFormed(s)
    ensures r.status in {200, 400, 401, 500}
    ensures r.status == 400 <==> req.Json? && (!Truthy(req.email) || !Truthy(req.password))
    ensures r.status == 400 ==> r.body == ErrorJson("Email and password are required")
    ensures r.status == 200 <==>
      req.Json? && Truthy(req.email) && Truthy(req.password) && !storeFails
      && Credentials(s, req.email.value, req.password.value)
    ensures r.status == 200 ==>
      exists id :: id in s.users && s.users[id].email == req.email.value
        && r.body == UserJson(Sanitize(Load(s.users[id], NoRelations)))
    ensures r.status == 401 <==>
      req.Json? && Truthy(req.email) && Truthy(req.password) && !storeFails
      && !Credentials(s, req.email.value, req.password.value) && !PasswordUnset(s.users, req.email.value)
    ensures r.status == 401 ==> r.body == ErrorJson("Invalid credentials")
    ensures r.status == 500 <==>
      || req.Unreadable?
      || (req.Json? && Truthy(req.email) && Truthy(req.password)
          && (storeFails || PasswordUnset(s.users, req.email.value)))
    ensures r.status == 500 ==> r.body == ErrorJson("Authentication failed")
  {
    if req.Unreadable? then
      Response(500, ErrorJson("Authentication failed"))
    else if !Truthy(req.email) || !Truthy(req.password) then
      Response(400, ErrorJson("Email and password are required"))
    else if storeFails then
      Response(500, ErrorJson("Authentication failed"))
    else
      match ValidatePassword(s, req.email.value, req.password.value)
      case Err(_) => Response(500, ErrorJson("Authentication failed"))
      case Ok(None) => Response(401, ErrorJson("Invalid credentials"))
      case Ok(Some(u)) => Response(200, UserJson(u))
  }

  /** The handler over the service object; it has no `modifies` clause, so
      it cannot change the table. */
  method Post(svc: S.UserService, req: Request, storeFails: bool) returns (resp: Response)
    requires svc.Valid()
    ensures resp == Login(svc.State(), req, storeFails)
  {
    if req.Unreadable? {
      return Response(500, ErrorJson("Authentication failed"));
    }
    if !Truthy(req.email) || !Truthy(req.password) {
      return Response(400, ErrorJson("Email and password are required"));
    }
    if storeFails {
      return Response(500, ErrorJson("Authentication failed"));
    }
    var user := svc.ValidatePassword(req.email.value, req.password.value);
    match user
    case Err(_) => resp := Response(500, ErrorJson("Authentication failed"));
    case Ok(None) => resp := Response(401, ErrorJson("Invalid credentials"));
    case Ok(Some(u)) => resp := Response(200, UserJson(u));
  }

  /** An email no row has answers 401, whatever the password. */
  lemma {:induction false} LoginUnknownEmail(s: Store, email: string, password: string)
    requires WellFormed(s) && email != "" && password != "" && !EmailTaken(s.users, email)
    ensures Login(s, Json(Some(email), Some(password), None), false) == Response(401, ErrorJson("Invalid credentials"))
  {
    UnknownEmailIsNull(s, email, password);
  }

  /** The development user has no password, so a login as that user makes
      bcrypt throw and answers 500. */
  lemma {:induction false} DevUserLoginFails(s: Store, now: string, password: string)
    requires WellFormed(s) && password != ""
    requires CreateDefaultDevUser(s, now).result.Ok?
    ensures var s1 := CreateDefaultDevUser(s, now).store;
      Login(s1, Json(Some(DevEmail), Some(password), None), false) == Response(500, ErrorJson("Authentication failed"))
  {
    var s1 := CreateDefaultDevUser(s, now).store;
    assert s1.users[s.nextId].email == DevEmail && s1.users[s.nextId].password.Unset?;
  }

  /** Logging in with the credentials of a successful registration succeeds. */
  lemma {:induction false} LoginAfterRegister(s: Store, req: Request, salt: nat, now: string)
    requires WellFormed(s)
    requires RegisterRoute.Register(s, req, false, salt, now).result.status == 201
    ensures var s1 := RegisterRoute.Register(s, req, false, salt, now).store;
      Login(s1, Json(req.email, req.password, None), false).status == 200
  {
    var data := RegisterRoute.RegistrationData(req.email.value, req.password.value, req.name);
    ValidateAfterCreate(s, data, salt, now);
  }
}
