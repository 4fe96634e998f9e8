/** The records of the user-account table (lib/services/userService.ts): the
    user row, its two one-to-one children (preferences and security), the
    sanitised view handed to clients, the password column, and the partial
    updates the service applies to the children. */
module UserRecords {
  import opened Wrappers

  type UserId = nat

  /** A bcrypt digest, idealised as a salted, collision-free one-way hash.
      The model keeps the salt and the password it was computed from; only
      `Matches` looks inside. */
  datatype Digest = Digest(salt: nat, source: string)

  /** `hash(password, 10)`; the random salt is a parameter. */
  function Hash(password: string, salt: nat): (d: Digest)
    ensures Matches(password, d)
    ensures forall other: string :: Matches(other, d) ==> other == password
  {
    Digest(salt, password)
  }

  /** bcrypt's comparison of a password against a digest. */
  predicate Matches(password: string, d: Digest) {
    d.source == password
  }

  /** What the password column holds: a digest written by the service, the
      raw string `updateUser` writes when it is given an empty password, or
      nothing (the development user is created without one). */
  datatype Credential = Hashed(digest: Digest) | Plain(text: string) | Unset

  /** Errors the service and the store raise. */
  datatype ServiceError =
    | UniqueViolation        // the store's unique index on email
    | RecordNotFound         // update or delete of a row that does not exist
    | HashMissing            // bcrypt's compare given no hash
    | Failed(message: string) // an error the service rethrows with its own message

  /** `compare(password, stored)`: true only for a digest of that password;
      a string that is not a digest never matches; a missing hash throws. */
  function Compare(password: string, c: Credential): (r: Result<bool, ServiceError>)
    ensures r == Ok(true) <==> c.Hashed? && Matches(password, c.digest)
    ensures r.Err? <==> c.Unset?
  {
    match c
    case Hashed(d) => Ok(Matches(password, d))
    case Plain(_) => Ok(false)
    case Unset => Err(HashMissing)
  }

  /** The optional top-level profile columns of a user. */
  datatype Field =
    | Name | Avatar | Role | Bio | Location | Company | Website | JoinDate
    | TwitterHandle | GithubHandle | LinkedinHandle

  /** The preferences child record. */
  datatype Preferences = Preferences(
    theme: string,
    notifications: bool,
    handGestureDetection: bool,
    facialEmotionRecognition: bool,
    speechRecognition: bool,
    darkMode: bool,
    highContrast: bool,
    reducedMotion: bool,
    language: string)

  /** The defaults `createUser` writes. */
  const DefaultPreferences := Preferences("system", true, true, true, true, false, false, false, "English")

  /** The columns of the preferences record, to speak of them one at a time. */
  datatype PrefKey =
    | Theme | Notifications | HandGestureDetection | FacialEmotionRecognition
    | SpeechRecognition | DarkMode | HighContrast | ReducedMotion | Language

  datatype PrefValue = Text(text: string) | Flag(flag: bool)

  function PrefGet(p: Preferences, k: PrefKey): PrefValue {
    match k
    case Theme => Text(p.theme)
    case Notifications => Flag(p.notifications)
    case HandGestureDetection => Flag(p.handGestureDetection)
    case FacialEmotionRecognition => Flag(p.facialEmotionRecognition)
    case SpeechRecognition => Flag(p.speechRecognition)
    case DarkMode => Flag(p.darkMode)
    case HighContrast => Flag(p.highContrast)
    case ReducedMotion => Flag(p.reducedMotion)
    case Language => Text(p.language)
  }

  /** A partial preferences payload: an absent key is `undefined`. */
  datatype PreferencesPatch = PreferencesPatch(
    theme: Option<string>,
    notifications: Option<bool>,
    handGestureDetection: Option<bool>,
    facialEmotionRecognition: Option<bool>,
    speechRecognition: Option<bool>,
    darkMode: Option<bool>,
    highContrast: Option<bool>,
    reducedMotion: Option<bool>,
    language: Option<string>)

  const EmptyPreferencesPatch := PreferencesPatch(None, None, None, None, None, None, None, None, None)

  function AsText(o: Option<string>): Option<PrefValue> {
    if o.Some? then Some(Text(o.value)) else None
  }

  function AsFlag(o: Option<bool>): Option<PrefValue> {
    if o.Some? then Some(Flag(o.value)) else None
  }

  /** The value a patch supplies for key `k`, if any. */
  function Supplied(patch: PreferencesPatch, k: PrefKey): Option<PrefValue> {
    match k
    case Theme => AsText(patch.theme)
    case Notifications => AsFlag(patch.notifications)
    case HandGestureDetection => AsFlag(patch.handGestureDetection)
    case FacialEmotionRecognition => AsFlag(patch.facialEmotionRecognition)
    case SpeechRecognition => AsFlag(patch.speechRecognition)
    case DarkMode => AsFlag(patch.darkMode)
    case HighContrast => AsFlag(patch.highContrast)
    case ReducedMotion => AsFlag(patch.reducedMotion)
    case Language => AsText(patch.language)
  }

  /** The store's update of an existing preferences record with a partial
      payload: supplied keys are written, all others are kept. */
  function MergePreferences(p: Preferences, patch: PreferencesPatch): Preferences
  {
    Preferences(
      patch.theme.GetOr(p.theme),
      patch.notifications.GetOr(p.notifications),
      patch.handGestureDetection.GetOr(p.handGestureDetection),
      patch.facialEmotionRecognition.GetOr(p.facialEmotionRecognition),
      patch.speechRecognition.GetOr(p.speechRecognition),
      patch.darkMode.GetOr(p.darkMode),
      patch.highContrast.GetOr(p.highContrast),
      patch.reducedMotion.GetOr(p.reducedMotion),
      patch.language.GetOr(p.language))
  }

  /** JavaScript's `s || d` on an optional string: an absent or empty string
      falls back to `d`. */
  function OrText(o: Option<string>, d: string): string {
    if o.Some? && o.value != "" then o.value else d
  }

  /** The create branch of `updateUser`'s preferences upsert: each boolean is
      the supplied value or its default (`??`); theme and language fall back
      to their defaults when absent or empty (`||`). */
  function CreatePreferences(patch: PreferencesPatch): Preferences
  {
    Preferences(
      OrText(patch.theme, DefaultPreferences.theme),
      patch.notifications.GetOr(DefaultPreferences.notifications),
      patch.handGestureDetection.GetOr(DefaultPreferences.handGestureDetection),
      patch.facialEmotionRecognition.GetOr(DefaultPreferences.facialEmotionRecognition),
      patch.speechRecognition.GetOr(DefaultPreferences.speechRecognition),
      patch.darkMode.GetOr(DefaultPreferences.darkMode),
      patch.highContrast.GetOr(DefaultPreferences.highContrast),
      patch.reducedMotion.GetOr(DefaultPreferences.reducedMotion),
      OrText(patch.language, DefaultPreferences.language))
  }

  /** The whole upsert: create from defaults when the child is absent,
      otherwise merge. */
  function UpsertPreferences(current: Option<Preferences>, patch: PreferencesPatch): Preferences {
    match current
    case None => CreatePreferences(patch)
    case Some(p) => MergePreferences(p, patch)
  }

  /** Merging writes exactly the supplied keys: a supplied key takes the
      supplied value, every other key keeps its value. */
  lemma {:induction false} MergeTouchesOnlySupplied(p: Preferences, patch: PreferencesPatch, k: PrefKey)
    ensures PrefGet(MergePreferences(p, patch), k) ==
      if Supplied(patch, k).Some? then Supplied(patch, k).value else PrefGet(p, k)
  {
    match k
    case Theme =>
    case Notifications =>
    case HandGestureDetection =>
    case FacialEmotionRecognition =>
    case SpeechRecognition =>
    case DarkMode =>
    case HighContrast =>
    case ReducedMotion =>
    case Language =>
  }

  /** Creating from a payload takes each supplied key, except that an empty
      theme or language (falsy in JavaScript) falls back like an absent one;
      every other key has its default. */
  lemma {:induction false} CreateTakesSuppliedOrDefault(patch: PreferencesPatch, k: PrefKey)
    ensures PrefGet(CreatePreferences(patch), k) ==
      if Supplied(patch, k).Some? && Supplied(patch, k) != Some(Text("")) then Supplied(patch, k).value
      else PrefGet(DefaultPreferences, k)
  {
    match k
    case Theme =>
    case Notifications =>
    case HandGestureDetection =>
    case FacialEmotionRecognition =>
    case SpeechRecognition =>
    case DarkMode =>
    case HighContrast =>
    case ReducedMotion =>
    case Language =>
  }

  /** Applying the same partial payload twice is the same as applying it once. */
  lemma MergeIdempotent(p: Preferences, patch: PreferencesPatch)
    ensures MergePreferences(MergePreferences(p, patch), patch) == MergePreferences(p, patch)
  {
  }

  /** An empty payload changes nothing. */
  lemma MergeEmptyIsIdentity(p: Preferences)
    ensures MergePreferences(p, EmptyPreferencesPatch) == p
  {
  }

  /** The create branch is the defaults overlaid with the payload, except that
      an empty theme or language still yields the default. */
  lemma {:induction false} CreateIsDefaultsOverlaid(patch: PreferencesPatch)
    requires patch.theme != Some("") && patch.language != Some("")
    ensures CreatePreferences(patch) == MergePreferences(DefaultPreferences, patch)
  {
  }

  /** One recorded login context. */
  datatype Session = Session(device: string, browser: string, date: string, isActive: bool)

  /** The security child record. */
  datatype Security = Security(twoFactorEnabled: bool, lastPasswordChange: string, sessions: seq<Session>)

  /** A partial security payload (its scalar columns). */
  datatype SecurityPatch = SecurityPatch(twoFactorEnabled: Option<bool>, lastPasswordChange: Option<string>)

  /** The store's update of an existing security record: supplied columns are
      written, the others and the session list are kept. */
  function MergeSecurity(s: Security, patch: SecurityPatch): (r: Security)
    ensures r.sessions == s.sessions
    ensures patch.twoFactorEnabled.None? ==> r.twoFactorEnabled == s.twoFactorEnabled
    ensures patch.lastPasswordChange.None? ==> r.lastPasswordChange == s.lastPasswordChange
    ensures patch.twoFactorEnabled.Some? ==> r.twoFactorEnabled == patch.twoFactorEnabled.value
    ensures patch.lastPasswordChange.Some? ==> r.lastPasswordChange == patch.lastPasswordChange.value
  {
    Security(
      patch.twoFactorEnabled.GetOr(s.twoFactorEnabled),
      patch.lastPasswordChange.GetOr(s.lastPasswordChange),
      s.sessions)
  }

  /** A row of the user table with its children. */
  datatype User = User(
    id: UserId,
    email: string,
    password: Credential,
    profile: map<Field, string>,
    preferences: Option<Preferences>,
    security: Option<Security>)

  /** Which relations a query's `include` loads: none, the preferences and
      security children, or those and the security child's session list. */
  datatype Include = NoRelations | Children | ChildrenAndSessions

  /** A relation as a query returns it: left out of the object when it was
      not included, otherwise the child, or null when there is none. */
  datatype Relation<T> = Omitted | Included(child: Option<T>)

  /** The security child as a query returns it; `sessions` is None when the
      session list was not included. */
  datatype SecurityRecord = SecurityRecord(twoFactorEnabled: bool, lastPasswordChange: string, sessions: Option<seq<Session>>)

  /** A row as a query returns it, password included. */
  datatype Record = Record(
    id: UserId,
    email: string,
    password: Credential,
    profile: map<Field, string>,
    preferences: Relation<Preferences>,
    security: Relation<SecurityRecord>)

  /** The security child as loaded, with or without its sessions. */
  function LoadSecurity(sec: Security, withSessions: bool): SecurityRecord {
    SecurityRecord(sec.twoFactorEnabled, sec.lastPasswordChange, if withSessions then Some(sec.sessions) else None)
  }

  /** What a query with `include` shape `inc` returns for the stored row `u`:
      every column, and exactly the relations the shape names. */
  function Load(u: User, inc: Include): (r: Record)
    ensures r.id == u.id && r.email == u.email && r.password == u.password && r.profile == u.profile
    ensures r.preferences.Omitted? <==> inc == NoRelations
    ensures r.security.Omitted? <==> inc == NoRelations
    ensures inc != NoRelations ==> r.preferences == Included(u.preferences)
    ensures inc != NoRelations ==> (r.security.child.Some? <==> u.security.Some?)
    ensures r.security.Included? && r.security.child.Some? ==>
      && r.security.child.value.twoFactorEnabled == u.security.value.twoFactorEnabled
      && r.security.child.value.lastPasswordChange == u.security.value.lastPasswordChange
      && (r.security.child.value.sessions.Some? <==> inc == ChildrenAndSessions)
      && (inc == ChildrenAndSessions ==> r.security.child.value.sessions == Some(u.security.value.sessions))
  {
    Record(u.id, u.email, u.password, u.profile,
      if inc == NoRelations then Omitted else Included(u.preferences),
      if inc == NoRelations then Omitted
      else Included(if u.security.Some? then Some(LoadSecurity(u.security.value, inc == ChildrenAndSessions)) else None))
  }

  /** Loading every relation loses nothing: two rows that load the same are
      the same row. */
  lemma LoadAllIsFaithful(u: User, v: User)
    requires Load(u, ChildrenAndSessions) == Load(v, ChildrenAndSessions)
    ensures u == v
  {
    if u.security.Some? {
      assert LoadSecurity(u.security.value, true) == LoadSecurity(v.security.value, true);
    }
  }

  /** A loaded row without its password, as handed to clients. */
  datatype PublicUser = PublicUser(
    id: UserId,
    email: string,
    profile: map<Field, string>,
    preferences: Relation<Preferences>,
    security: Relation<SecurityRecord>)

  /** `sanitizeUser`: drops the password and keeps everything else. */
  function Sanitize(u: Record): (r: PublicUser)
    ensures r.id == u.id && r.email == u.email && r.profile == u.profile
    ensures r.preferences == u.preferences && r.security == u.security
  {
    PublicUser(u.id, u.email, u.profile, u.preferences, u.security)
  }

  /** The sanitised view carries nothing of the password: records that
      differ only in the password column look the same to a client. */
  lemma SanitizeForgetsPassword(u: Record, c: Credential)
    ensures Sanitize(u) == Sanitize(u.(password := c))
  {
  }
}
