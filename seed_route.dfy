/** POST /dev/seed (app/api/dev/seed/route.ts): ensure the default
    development user exists. */
module SeedRoute {
  import opened Wrappers
  import opened UserRecords
  import opened UserTable
  import opened Http
  import S = Service

  /** The user the route creates. */
  const SeedUser := NewUserData(DefaultEmail, "default-password",
    map[Name := "Default User", Role := "user", Bio := "This is a default user for development",
        Avatar := "/placeholder-user.jpg"])

  /** The message of a 500: the error's message and stack in development
      (`detail`), a fixed text otherwise. */
  function SeedErrorMessage(env: NodeEnv, detail: string): string {
    if env == Development then detail else "Failed to seed database"
  }

  /** The handler as a decision over the table. `storeFails` stands for a
      store that throws; `detail` for the error's message and stack. */
  function Seed(s: Store, env: NodeEnv, storeFails: bool, detail: string, salt: nat, now: string): (r: Step<Response>)
    requires WellFormed(s)
    ensures WellFormed(r.store)
    ensures r.result.status in {200, 403, 500}
    ensures r.result.status != 200 || EmailTaken(s.users, DefaultEmail) ==> r.store == s
    ensures r.result.status == 403 <==> env == Production
    ensures r.result.status == 500 <==> env != Production && storeFails
    ensures r.result.status == 500 ==> r.result.body == ErrorJson(SeedErrorMessage(env, detail))
    ensures r.result.status == 200 && EmailTaken(s.users, DefaultEmail) ==>
      r.result.body == RecordJson(Load(FindByEmail(s.users, DefaultEmail).value, Children))
    ensures r.result.status == 200 && !EmailTaken(s.users, DefaultEmail) ==>
      var u := NewUser(s.nextId, SeedUser, salt, now);
      && s.nextId !in s.users
      && r.store.users == s.users[s.nextId := u]
      && r.result.body == UserJson(Sanitize(Load(u, Children)))
  {
    if env == Production then
      Step(Response(403, ErrorJson("Not available in production")), s)
    else if storeFails then
      Step(Response(500, ErrorJson(SeedErrorMessage(env, detail))), s)
    else
      match FindByEmail(s.users, DefaultEmail)
      case Some(existing) => Step(Response(200, RecordJson(Load(existing, Children))), s)
      case None =>
        var created := CreateUser(s, SeedUser, salt, now);
        match created.result
        case Ok(u) => Step(Response(200, UserJson(u)), created.store)
        case Err(_) => Step(Response(500, ErrorJson(SeedErrorMessage(env, detail))), s)
  }

  /** The handler over the service object. */
  method Post(svc: S.UserService, env: NodeEnv, storeFails: bool, detail: string, salt: nat, now: string)
    returns (resp: Response)
    requires svc.Valid()
    modifies svc
    ensures svc.Valid()
    ensures Step(resp, svc.State()) == Seed(old(svc.State()), env, storeFails, detail, salt, now)
  {
    if env == Production {
      return Response(403, ErrorJson("Not available in production"));
    }
    if storeFails {
      return Response(500, ErrorJson(SeedErrorMessage(env, detail)));
    }
    var existing := svc.GetUserByEmail(DefaultEmail);
    if existing.Some? {
      return Response(200, RecordJson(existing.value));
    }
    var created := svc.CreateUser(SeedUser, salt, now);
    match created
    case Ok(u) => resp := Response(200, UserJson(u));
    case Err(_) => resp := Response(500, ErrorJson(SeedErrorMessage(env, detail)));
  }

  /** Seeding twice returns the same user id, and the second call changes
      nothing. */
  lemma {:induction false} SeedIdempotent(s: Store, env: NodeEnv, salt1: nat, salt2: nat, now1: string, now2: string)
    requires WellFormed(s) && env != Production
    ensures var r1 := Seed(s, env, false, "", salt1, now1);
      var r2 := Seed(r1.store, env, false, "", salt2, now2);
      && r1.result.status == 200 && r2.result.status == 200
      && BodyUserId(r1.result.body).Some?
      && BodyUserId(r2.result.body) == BodyUserId(r1.result.body)
      && r2.store == r1.store
  {
    var r1 := Seed(s, env, false, "", salt1, now1);
    if EmailTaken(s.users, DefaultEmail) {
      assert r1.store == s;
    } else {
      FindByEmailIsTheOne(r1.store, s.nextId);
    }
  }

  /** The table never holds two default users. */
  lemma {:induction false} AtMostOneDefaultUser(s: Store)
    requires WellFormed(s)
    ensures |set id | id in s.users && s.users[id].email == DefaultEmail| <= 1
  {
    var ids := set id | id in s.users && s.users[id].email == DefaultEmail;
    if ids != {} {
      var id :| id in ids;
      assert ids == {id};
    }
  }
}
