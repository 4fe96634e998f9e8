# GestureSense AI: user accounts and dashboard state, modelled in Dafny

GestureSense AI is a demo web application. It has a landing page with a use-case carousel, a mock detection dashboard and a user-account subsystem. This project models the parts of it that carry logic and proves properties of them.

The parts modelled:

- **The user table and `UserService`** (`lib/services/userService.ts`).
  - `user_records.dfy` holds the row, its preferences and security children, the sanitised view and the password column. `Load` gives what a query returns for each `include` shape: no relations (`validatePassword`), both children (`createUser`, `getUserByEmail`, `updateUser`), or both children and the session list (`getUserById`, `createDefaultDevUser`).
  - `user_table.dfy` writes every service operation as a function from the table before to its result and the table after. The invariant `WellFormed` covers ids, unique emails and the password column.
  - `user_service.dfy` is the `UserService` class. It holds the table as a map, and each method is proved against its function.
- **The route handlers**. Each takes the service object and a request, decides a status, and is proved against a function over the table:
  - `register_route.dfy`: register (400/201/500);
  - `login_route.dfy`: login (400/401/200/500). It is read-only and has no `modifies` clause;
  - `seed_route.dfy`: the development seed (403/200/500).
- **`initializeApp`** (`app_init.dfy`). It makes sure the default user exists and records its id in the process environment.
- **The dashboard** (`dashboard.dfy`):
  - the newest-first history, capped at five entries;
  - the mood score table;
  - the tick of the detection interval;
  - the component state as a class: microphone, live detection, speech callbacks and image upload.
- **The landing-page carousel** (`landing.dfy`) and **the preferences panel** (`preferences_panel.dfy`).

Randomness, clocks, browser permissions and store failures are parameters:

- a random pick is an index below the table's length;
- `now` and the item ids are strings supplied by the caller;
- `permissionGranted` is the outcome of the microphone request;
- `storeFails` means the store throws.

Password hashing is an idealised salted hash: `Hash(p, salt)` matches `p` and nothing else.

Points where the model follows the code as written:

- The store's unique index on email is what rejects a duplicate. `createUser` does not check for one itself.
- `updateUser` treats an empty password as falsy. It skips the hash and writes `""` unhashed, and afterwards no password validates (`UserTable.EmptyPasswordLocksOut`).
- `createDefaultDevUser` writes no password. For that row, bcrypt's compare throws instead of answering false, so login answers 500.
- The seed route's "already exists" path returns the stored row with its password hash. Its create path returns a sanitised user.
- The security branch of `updateUser` (lib/services/userService.ts:138-144) is truncated and does not parse, so it is not modelled.
- `validatePassword` looks the row up without `include`, so a successful login answers with the user's columns only, without preferences or security.

## Model

| member | source | states |
|---|---|---|
| UserRecords.Hash | lib/services/userService.ts:42 | the stored digest matches the password it was made from and no other password |
| UserRecords.Compare | lib/services/userService.ts:162 | compare is true exactly for a digest of the given password; a string that is not a digest never matches; a missing hash throws |
| UserRecords.MergeTouchesOnlySupplied | lib/services/userService.ts:134 | updating present preferences writes each supplied key's value and leaves every other key unchanged |
| UserRecords.CreateTakesSuppliedOrDefault | lib/services/userService.ts:122-133 | creating absent preferences takes each supplied key. An empty theme or language falls back like an absent one (`||`). Every other key gets its default: theme "system", language "English", four flags true and three false |
| UserRecords.CreateIsDefaultsOverlaid | lib/services/userService.ts:122-133 | without empty strings, the create branch equals the defaults updated with the payload |
| UserRecords.MergeIdempotent | lib/services/userService.ts:119-136 | applying the same partial preferences payload twice equals applying it once |
| UserRecords.MergeEmptyIsIdentity | lib/services/userService.ts:134 | an empty preferences payload changes nothing |
| UserRecords.MergeSecurity | lib/services/userService.ts:199-201 | a security update writes the supplied scalar columns and keeps the others and the session list |
| UserRecords.Load | lib/services/userService.ts:79-101 | a query's result has every column of the row and exactly the relations its include names: none, both children, or both children with the session list |
| UserRecords.LoadAllIsFaithful | lib/services/userService.ts:79-89 | loading every relation loses nothing: two rows that load the same are equal |
| UserRecords.Sanitize | lib/services/userService.ts:279-282 | the sanitised user keeps id, email, profile and whichever relations were loaded; its type has no password field |
| UserRecords.SanitizeForgetsPassword | lib/services/userService.ts:279-282 | loaded rows that differ only in the password look the same once sanitised |
| UserTable.FindByEmail | lib/services/userService.ts:95-106 | the lookup is null exactly when no row has the email; otherwise it is that stored row, password included |
| UserTable.FindByEmailIsTheOne | lib/services/userService.ts:95-106 | with unique emails, the lookup by a row's email returns that row |
| UserTable.CreateUser | lib/services/userService.ts:41-76 | on a fresh email, exactly one row is added under a fresh id, and the result is that row sanitised with both children but not the session list; a taken email is rejected and the table is unchanged; the table invariant is preserved |
| UserTable.CreatedUserDefaults | lib/services/userService.ts:42-75 | a created user has the default preferences, and a security record with two-factor off and no sessions. Its password is a digest of the given one, never the plaintext |
| UserTable.GetUserById | lib/services/userService.ts:78-93 | null exactly when no row has the id, otherwise the sanitised row with both children and the session list |
| UserTable.ValidatePassword | lib/services/userService.ts:155-166 | returns a user exactly when a row has the email and its stored digest matches the password; that user is the row sanitised, with no relations loaded. It throws (bcrypt's missing hash) exactly when the row with that email has no password, and otherwise returns null |
| UserTable.UnknownEmailIsNull | lib/services/userService.ts:156-160 | an email no row has gives null, whatever the password |
| UserTable.ValidateAfterCreate | lib/services/userService.ts:155-166 | right after createUser({email, password}) succeeds, validatePassword(email, password) returns the created user without its children |
| UserTable.UpdateUser | lib/services/userService.ts:108-153 | succeeds exactly when the id exists and no other row has the supplied email. An unknown id throws record-not-found, an email taken by another row throws the unique violation, and both leave the table unchanged. Otherwise only that row is rewritten, and the result is it sanitised with both children. The invariant is preserved |
| UserTable.UpdatePasswordAndProfile | lib/services/userService.ts:109-118 | when the email is absent or not another row's, the update succeeds and the email is written as given or kept. Without a password the stored one is kept, and a non-empty password is re-hashed. Supplied profile columns are written as given and absent ones kept |
| UserTable.UpdatePreferencesUpsert | lib/services/userService.ts:119-136 | with a preferences payload, absent preferences are created from the payload over the defaults; present ones change only in the supplied keys |
| UserTable.EmptyPasswordLocksOut | lib/services/userService.ts:111-113 | an empty password is written unhashed as "", after which validatePassword fails for every password |
| UserTable.DeleteUser | lib/services/userService.ts:168-172 | deleting removes exactly that row; a missing row throws and leaves the table unchanged |
| UserTable.DeleteThenGet | lib/services/userService.ts:168-172 | after deleteUser(id), getUserById(id) is null and every other lookup is unchanged |
| UserTable.UpdateUserPreferences | lib/services/userService.ts:174-192 | merges the payload into that user's preferences and returns them; a missing user or missing preferences throws "Failed to update user preferences" with the table unchanged |
| UserTable.UpdateUserSecurity | lib/services/userService.ts:194-216 | merges the payload into that user's security record and returns it; a missing user or record throws "Failed to update user security settings" with the table unchanged |
| UserTable.CreateUserKeepsChildren | lib/services/userService.ts:44-68 | if every row has both children, it still does after createUser, which writes both |
| UserTable.UpdateUserKeepsChildren | lib/services/userService.ts:115-150 | updateUser never removes a child: the preferences branch is an upsert |
| UserTable.DeleteUserKeepsChildren | lib/services/userService.ts:168-172 | deleting a row leaves every remaining row with both children |
| UserTable.CreateDefaultDevUserKeepsChildren | lib/services/userService.ts:234-261 | createDefaultDevUser writes both children |
| UserTable.UpdateUserPreferencesKeepsChildren | lib/services/userService.ts:174-192 | on a table whose rows all have both children, updateUserPreferences keeps them, and it fails exactly for an unknown id |
| UserTable.UpdateUserSecurityKeepsChildren | lib/services/userService.ts:194-216 | on a table whose rows all have both children, updateUserSecurity keeps them, and it fails exactly for an unknown id |
| UserTable.NarrowUpdatesTouchOneChild | lib/services/userService.ts:174-216 | the two narrow updates change only their named child of their own user; all other rows and fields are unchanged |
| UserTable.CreateDefaultDevUser | lib/services/userService.ts:218-277 | adds exactly the fixed development row (`DevUser`: its profile columns, preferences, two-factor off and one "Development Desktop"/"Chrome" session) and leaves the others. It returns that row unsanitised with every relation loaded: no password, dark mode on, and exactly one session, which is active. If the email exists it throws "Failed to create development user" with the table unchanged |
| Service.UserService.CreateUser | lib/services/userService.ts:41-76 | the new table and result are those of UserTable.CreateUser, and the invariant holds |
| Service.UserService.GetUserById | lib/services/userService.ts:78-93 | null exactly for an absent id, otherwise the sanitised row with both children and the session list |
| Service.UserService.GetUserByEmail | lib/services/userService.ts:95-106 | null exactly when the email is absent, otherwise that stored row with its password and both children, but not the session list |
| Service.UserService.ValidatePassword | lib/services/userService.ts:155-166 | the result is UserTable.ValidatePassword's, and the table is not modified |
| Service.UserService.UpdateUser | lib/services/userService.ts:108-153 | the new table and result are those of UserTable.UpdateUser |
| Service.UserService.DeleteUser | lib/services/userService.ts:168-172 | the new table and result are those of UserTable.DeleteUser |
| Service.UserService.UpdateUserPreferences | lib/services/userService.ts:174-192 | the new table and result are those of UserTable.UpdateUserPreferences |
| Service.UserService.UpdateUserSecurity | lib/services/userService.ts:194-216 | the new table and result are those of UserTable.UpdateUserSecurity |
| Service.UserService.CreateDefaultDevUser | lib/services/userService.ts:218-277 | the new table and result are those of UserTable.CreateDefaultDevUser |
| RegisterRoute.Register | app/api/users/register/route.ts:6-40 | a missing or empty email or password gives 400 "Email and password are required". A taken email gives 400 "User already exists". Both leave the table unchanged. Otherwise exactly one user is created from email, password and name, with status 201 and the sanitised user. An unreadable body or a failing store gives 500 "Failed to create user". Emails stay unique |
| RegisterRoute.Post | app/api/users/register/route.ts:6-40 | the response and the new table are those of Register |
| RegisterRoute.RegisterTwice | app/api/users/register/route.ts:18-24 | registering an email just registered answers 400 "User already exists" and changes nothing |
| LoginRoute.Login | app/api/users/login/route.ts:6-34 | 400 exactly for a missing or empty field. 200 exactly when a user with that email has a matching digest, with that user sanitised and no relations. 401 "Invalid credentials" exactly when the fields are given, the store works, and no row with that email matches or lacks a password. 500 "Authentication failed" exactly for an unreadable body, a failing store, or a row without a password |
| LoginRoute.LoginUnknownEmail | app/api/users/login/route.ts:18-24 | an email no user has answers 401 "Invalid credentials" |
| LoginRoute.DevUserLoginFails | app/api/users/login/route.ts:18-33 | after createDefaultDevUser, logging in as dev@example.com answers 500, because that row has no password for bcrypt to compare |
| LoginRoute.Post | app/api/users/login/route.ts:6-34 | the response is Login's (a 200 body carries no relations), and the table is not modified |
| LoginRoute.LoginAfterRegister | app/api/users/login/route.ts:18-26 | logging in with the email and password of a successful registration answers 200 |
| SeedRoute.Seed | app/api/dev/seed/route.ts:6-39 | production answers 403. A failing store answers 500, with the error detail only in development. An existing default user is returned as getUserByEmail loads it: password included, with both children. Otherwise exactly one default user is created and returned sanitised. Only creation changes the table |
| SeedRoute.Post | app/api/dev/seed/route.ts:6-39 | the response and the new table are those of Seed |
| SeedRoute.SeedIdempotent | app/api/dev/seed/route.ts:12-29 | two seed calls in a row both answer 200 with the same user id, and the second changes nothing |
| SeedRoute.AtMostOneDefaultUser | app/api/dev/seed/route.ts:12-29 | the table never holds more than one default@example.com user |
| AppInit.InitializeApp | lib/init.ts:5-32 | outside development, or when the store throws, the table and the recorded id are unchanged. Otherwise the recorded id names a default@example.com user: the existing one, with nothing created, or a single newly created one |
| Dashboard.PushDetection | app/dashboard/page.tsx:253-260 | the new item is first, followed by the newest old items in their order, at most five in all |
| Dashboard.PushUpload | app/dashboard/page.tsx:394-410 | the gesture item, then the emotion item, then the newest old items in their order, at most five in all |
| Dashboard.InsertsArePrependAndCap | app/dashboard/page.tsx:183 | both inserts equal prepending the new items and keeping the five newest |
| Dashboard.UploadIsTwoPushes | app/dashboard/page.tsx:410 | an upload insert equals pushing the emotion and then the gesture |
| Dashboard.MoodScore | app/dashboard/page.tsx:268-276 | the score is the table value for a known name, 70 otherwise, and always one of 90, 70, 75, 40, 30, 50 |
| Dashboard.EveryEmotionIsScored | app/dashboard/page.tsx:91-98 | every emotion the dashboard can pick has its own score, so the fallback never applies to them |
| Dashboard.Tick | app/dashboard/page.tsx:244-281 | without live detection nothing changes. On a live tick with gestures on, the picked gesture is shown and pushed onto the history ahead of the four newest old items; with emotions on, the picked emotion is shown and the mood score is its table value. With gestures off, the gesture and history are unchanged; with emotions off, the emotion and mood score are unchanged. Nothing else ever changes, and the state invariant is kept |
| Dashboard.LiveTickRecords | app/dashboard/page.tsx:247-277 | a live tick with both detectors on shows the picked gesture and emotion, records the gesture first in the history and scores the emotion by the table |
| Dashboard.DashboardState.constructor | app/dashboard/page.tsx:111-135 | the initial values of every state variable |
| Dashboard.DashboardState.ToggleMicrophone | app/dashboard/page.tsx:216-241 | without a recognizer nothing changes; listening stops both flags; otherwise a granted permission sets both and clears the error, a denied one sets "Microphone access denied" only |
| Dashboard.DashboardState.StartLiveDetection | app/dashboard/page.tsx:283-302 | sets live detection and camera on, nothing else |
| Dashboard.DashboardState.StopLiveDetection | app/dashboard/page.tsx:304-322 | sets live detection, camera, microphone and listening off and clears the speech text, nothing else |
| Dashboard.DashboardState.OnTick | app/dashboard/page.tsx:247-278 | the new state is Tick of the old |
| Dashboard.DashboardState.OnSpeechResult | app/dashboard/page.tsx:160-193 | shows the transcript; a final result is pushed to the history as a speech item |
| Dashboard.DashboardState.OnRecognitionError | app/dashboard/page.tsx:196-200 | shows the error and stops listening |
| Dashboard.DashboardState.OnRecognitionEnd | app/dashboard/page.tsx:203-205 | stops listening |
| Dashboard.DashboardState.SelectFile | app/dashboard/page.tsx:366-382 | no file or a non-image file changes nothing; an image is shown, the modal opens and analysis starts |
| Dashboard.DashboardState.FinishImageAnalysis | app/dashboard/page.tsx:383-412 | shows the picked results, records them with the upload insert and ends analysis |
| Dashboard.DashboardState.CleanupUploadedImage | app/dashboard/page.tsx:416-422 | clears the image and results only when an image is set |
| Dashboard.DashboardState.CloseUploadModal | app/dashboard/page.tsx:424-427 | closes the modal and then cleans up the image |
| Landing.Next | app/page.tsx:125-127 | the next index stays in [0, 5) and wraps 4 to 0 |
| Landing.Prev | app/page.tsx:129-131 | the previous index stays in [0, 5) and wraps 0 to 4 |
| Landing.PrevUndoesNext | app/page.tsx:125-131 | prev after next, and next after prev, restore the index |
| Landing.Advance | app/page.tsx:125-127 | any number of next presses keeps the index in [0, 5) |
| Landing.AdvanceMovesRound | app/page.tsx:125-127 | k next presses move the index k places round the five cards |
| Landing.FivePressesReturn | app/page.tsx:125-127 | five next presses return to the starting index |
| Landing.StartShowsFirstCards | app/page.tsx:35 | the carousel starts at a valid index and shows the first three cards |
| Landing.Window | app/page.tsx:281 | the window at index i holds min(3, 5 - i) cards, the cards from i on, without wrapping |
| PreferencesPanel.InitialValues | gesturesense-profile/components/preferences-panel.tsx:9-16 | initially every flag is on except voiceRecognition and advancedAnalytics |
| PreferencesPanel.Toggle | gesturesense-profile/components/preferences-panel.tsx:18-23 | toggling negates the flag at the key |
| PreferencesPanel.ToggleKeepsOthers | gesturesense-profile/components/preferences-panel.tsx:19-22 | toggling leaves every other flag unchanged |
| PreferencesPanel.ToggleTwice | gesturesense-profile/components/preferences-panel.tsx:18-23 | toggling a key twice restores the record |
| PreferencesPanel.ItemsCoverEveryKeyOnce | gesturesense-profile/components/preferences-panel.tsx:25-62 | there are six switches, one for each key of the record, and no key appears twice |

## Left out

- The security branch of `updateUser` (lib/services/userService.ts:138-144): the source is truncated there and does not parse.
- `createSession`: a route calls it, but `UserService` does not define it. It is not part of this model.
- UserTable.UpdateUserSecurity: the payload covers only the scalar columns `twoFactorEnabled` and `lastPasswordChange`. The store's nested operations on the session relation are not modelled.
- UserRecords.Hash: the hash is collision-free and exact. bcrypt's cost factor and its 72-byte input limit are not modelled.
- Ids are drawn from a counter (`nextId`) instead of the store's random id generator. Timestamps the service writes (`now`) are strings supplied by the caller. The store's own `createdAt` and `updatedAt` columns are not modelled.
- Schema assumptions. The database schema is not part of this model, and the source gives signals that no single schema satisfies.
  - The password column is assumed nullable, because `createDefaultDevUser` (lib/services/userService.ts:220-262) sets no password. With a required column, that create would throw every time.
  - `createUser` writes `sessions: []` (lib/services/userService.ts:65) as if `sessions` were a plain column. `createDefaultDevUser` (250-259) and `getUserById` (83-87) treat it as a relation. Either way, the model takes a created user to have an empty session list.
- Column defaults from the database schema are not modelled, apart from one: the dev user's theme, which its create omits, is assumed to default to "system" like `createUser`'s. The schema is not part of this model.
- Infrastructure failures: the service functions model only the store's unique index and missing rows. The routes take `storeFails` for every other thrown error. Cascading deletes are a single map removal.
- Concurrency: requests are handled one at a time. Register, seed and `initializeApp` each look an email up and then create, so two concurrent calls can both pass the lookup. The second create then hits the unique index, and the route answers 500. `SeedRoute.SeedIdempotent` holds for calls in sequence only.
- Request bodies whose fields are JSON values other than strings, and response serialisation.
- Browser APIs: the speech recognizer object, getUserMedia, media tracks, object URLs, `alert`, and the scroll and click listeners.
- Timers: the 3-second interval is a step (`OnTick`). The 2-second upload delay is a separate step (`FinishImageAnalysis`). The 5-second clearing of the speech text is not modelled.
- Dashboard.DashboardState.OnSpeechResult: the speech confidence is a parameter. The source computes it with `Math.round` on a float and reads a stale copy from the effect's closure.
- Emoji of the mock detections, and the theme toggle, profile dropdown and search box of the dashboard.
- The gesture and emotion switches and the camera button (`setCameraEnabled(!cameraEnabled)`) of the dashboard: each assigns its flag directly.
- Fetch wrappers, React context and hooks, and the purely presentational pages, layouts and components.
