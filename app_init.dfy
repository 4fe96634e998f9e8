/** `initializeApp` (lib/init.ts): in development, make sure the default user
    exists and record its id in the process environment. */
module AppInit {
  import opened Wrappers
  import opened UserRecords
  import opened UserTable
  import opened Http
  import S = Service

  /** The process environment: NODE_ENV and NEXT_PUBLIC_DEFAULT_USER_ID. */
  class ProcessEnv {
    const nodeEnv: NodeEnv
    var defaultUserId: Option<UserId>

    constructor (nodeEnv: NodeEnv)
      ensures this.nodeEnv == nodeEnv && defaultUserId == None
    {
      this.nodeEnv := nodeEnv;
      defaultUserId := None;
    }
  }

  /** The user `initializeApp` creates. */
  const InitUser := NewUserData(DefaultEmail, "default-password",
    map[Name := "Default User", Bio := "This is a default user for development",
        Avatar := "/placeholder-user.jpg"])

  /** `initializeApp`. `storeFails` stands for a store that throws; the
      error is logged and swallowed. */
  method InitializeApp(svc: S.UserService, env: ProcessEnv, storeFails: bool, salt: nat, now: string)
    requires svc.Valid()
    modifies svc, env
    ensures svc.Valid()
    ensures env.nodeEnv != Development || storeFails ==>
      svc.State() == old(svc.State()) && env.defaultUserId == old(env.defaultUserId)
    ensures env.nodeEnv == Development && !storeFails ==>
      && env.defaultUserId.Some?
      && env.defaultUserId.value in svc.users
      && svc.users[env.defaultUserId.value].email == DefaultEmail
    ensures env.nodeEnv == Development && !storeFails && old(EmailTaken(svc.users, DefaultEmail)) ==>
      && svc.State() == old(svc.State())
      && env.defaultUserId == Some(FindByEmail(old(svc.users), DefaultEmail).value.id)
    ensures env.nodeEnv == Development && !storeFails && !old(EmailTaken(svc.users, DefaultEmail)) ==>
      && old(svc.nextId) !in old(svc.users)
      && svc.users == old(svc.users)[old(svc.nextId) := NewUser(old(svc.nextId), InitUser, salt, now)]
      && env.defaultUserId == Some(old(svc.nextId))
  {
    if env.nodeEnv != Development {
      return;
    }
    if storeFails {
      return;
    }
    var existing := svc.GetUserByEmail(DefaultEmail);
    if existing.None? {
      var created := svc.CreateUser(InitUser, salt, now);
      if created.Ok? {
        env.defaultUserId := Some(created.value.id);
      }
    } else {
      env.defaultUserId := Some(existing.value.id);
    }
  }
}
