/** What the route handlers read and answer: the JSON request body, the
    response status and body, and the runtime environment. */
module Http {
  import opened Wrappers
  import opened UserRecords

  /** A request body: either it is not valid JSON, or is null, so reading or
      destructuring it throws; or it gives some of email, password and name
      (a body of another JSON type gives none of them). A non-string field
      value is outside the model. */
  datatype Request =
    | Unreadable
    | Json(email: Option<string>, password: Option<string>, name: Option<string>)

  /** JavaScript truthiness of an optional string: present and non-empty. */
  predicate Truthy(o: Option<string>) {
    o.Some? && o.value != ""
  }

  /** A response body: a sanitised user, a loaded row with its password, or
      an error. */
  datatype Body = UserJson(user: PublicUser) | RecordJson(record: Record) | ErrorJson(error: string)

  datatype Response = Response(status: int, body: Body)

  /** The id of the user a body carries, if any. */
  function BodyUserId(b: Body): Option<UserId> {
    match b
    case UserJson(u) => Some(u.id)
    case RecordJson(u) => Some(u.id)
    case ErrorJson(_) => None
  }

  /** `process.env.NODE_ENV`. */
  datatype NodeEnv = Development | Production | Test

  /** The email of the development default user. */
  const DefaultEmail := "default@example.com"
}
