/** POST /users/register (app/api/users/register/route.ts). */
module RegisterRoute {
  import opened Wrappers
  import opened UserRecords
  import opened UserTable
  import opened Http
  import S = Service

  /** The `createUser` input the handler builds: email, password and name only. */
  function RegistrationData(email: string, password: string, name: Option<string>): NewUserData {
    NewUserData(email, password, if name.Some? then map[Name := name.value] else map[])
  }

  /** The handler as a decision over the table. `storeFails` stands for a
      store that throws on its first call. */
  function Register(s: Store, req: Request, storeFails: bool, salt: nat, now: string): (r: Step<Response>)
    requires WellFormed(s)
    ensures WellFormed(r.store)
    ensures r.result.status in {201, 400, 500}
    ensures r.result.status != 201 ==> r.store == s
    ensures r.result.status == 500 ==> r.result.body == ErrorJson("Failed to create user")
    ensures r.result.status == 400 ==>
      r.result.body == if req.Json? && Truthy(req.email) && Truthy(req.password) then ErrorJson("User already exists")
                       else ErrorJson("Email and password are required")
    ensures r.result.status == 400 <==>
      req.Json? && (!Truthy(req.email) || !Truthy(req.password) || (!storeFails && EmailTaken(s.users, req.email.value)))
    ensures r.result.status == 201 <==>
      req.Json? && Truthy(req.email) && Truthy(req.password) && !storeFails && !EmailTaken(s.users, req.email.value)
    ensures r.result.status == 201 ==>
      var u := NewUser(s.nextId, RegistrationData(req.email.value, req.password.value, req.name), salt, now);
      && s.nextId !in s.users
      && r.store.users == s.users[s.nextId := u]
      && r.result.body == UserJson(Sanitize(Load(u, Children)))
  {
    if req.Unreadable? then
      Step(Response(500, ErrorJson("Failed to create user")), s)
    else if !Truthy(req.email) || !Truthy(req.password) then
      Step(Response(400, ErrorJson("Email and password are required")), s)
    else if storeFails then
      Step(Response(500, ErrorJson("Failed to create user")), s)
    else if FindByEmail(s.users, req.email.value).Some? then
      Step(Response(400, ErrorJson("User already exists")), s)
    else
      var created := CreateUser(s, RegistrationData(req.email.value, req.password.value, req.name), salt, now);
      match created.result
      case Ok(u) => Step(Response(201, UserJson(u)), created.store)
      case Err(_) => Step(Response(500, ErrorJson("Failed to create user")), s)
  }

  /** The handler over the service object. */
  method Post(svc: S.UserService, req: Request, storeFails: bool, salt: nat, now: string) returns (resp: Response)
    requires svc.Valid()
    modifies svc
    ensures svc.Valid()
    ensures Step(resp, svc.State()) == Register(old(svc.State()), req, storeFails, salt, now)
  {
    if req.Unreadable? {
      return Response(500, ErrorJson("Failed to create user"));
    }
    if !Truthy(req.email) || !Truthy(req.password) {
      return Response(400, ErrorJson("Email and password are required"));
    }
    if storeFails {
      return Response(500, ErrorJson("Failed to create user"));
    }
    var existing := svc.GetUserByEmail(req.email.value);
    if existing.Some? {
      return Response(400, ErrorJson("User already exists"));
    }
    var created := svc.CreateUser(RegistrationData(req.email.value, req.password.value, req.name), salt, now);
    match created
    case Ok(u) => resp := Response(201, UserJson(u));
    case Err(_) => resp := Response(500, ErrorJson("Failed to create user"));
  }

  /** Registering an email that a successful registration just added fails
      with "User already exists" and leaves the table as it is. */
  lemma {:induction false} RegisterTwice(s: Store, first: Request, second: Request, salt1: nat, salt2: nat, now1: string, now2: string)
    requires WellFormed(s)
    requires Register(s, first, false, salt1, now1).result.status == 201
    requires second.Json? && Truthy(second.password) && second.email == first.email
    ensures var s1 := Register(s, first, false, salt1, now1).store;
      Register(s1, second, false, salt2, now2) == Step(Response(400, ErrorJson("User already exists")), s1)
  {
    var s1 := Register(s, first, false, salt1, now1).store;
    assert s1.users[s.nextId].email == first.email.value;
    assert EmailTaken(s1.users, second.email.value);
  }
}
