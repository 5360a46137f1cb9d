# Referral platform: a verified model of its core

The referral platform lets people register, log in, keep a profile
(name, phone, education and employment history), and post job referrals
with a title, company, description and status (Pending, Accepted or Closed).
Anyone can read the public feed. Only a referral's owner may change or delete it.

This Dafny project models the core of both halves of the system.

**Backend.**
- The two stored entities: users, whose password is hashed on save, and referrals.
- The register and login handlers.
- The profile handlers.
- The referral CRUD handlers and their ownership guard.
- The bearer-token gate in front of the protected routes.

**Frontend.**
- The shared HTTP client: the error-message mapping and the two interceptors.
- The authentication context: the session kept in memory and mirrored to `localStorage`.
- The login/register page.
- The profile page.

Module by module:

| module | models |
|---|---|
| `Text` | decimal rendering and parsing, `split` on one character, `startsWith`, the `trim` whitespace set |
| `Jwt`, `Bcrypt` | symbolic token signing and password hashing, with the round trips the code relies on |
| `Http` | status codes and the `Success`/`Failure` reply |
| `UserModel`, `ReferralModel` | the schemas, the pre-save hook, the enum validator and the two collections as classes over maps |
| `AuthController`, `ProfileController`, `ReferralController` | the request handlers |
| `AuthGate` | the auth middleware |
| `Browser` | `localStorage` |
| `ApiClient` | the axios error mapping and the interceptors |
| `AuthContext` | the provider's state and its restore and sync effects |
| `AuthPage`, `ProfilePage` | the page state and its handlers |
| `EndToEnd` | properties that span the client and the server |

The collections are the classes `UserTable` and `ReferralTable`; their methods `Insert`, `Save` and `Delete` change the stored maps. The handlers that change stored state (`RegisterUser`, `CreateOrUpdateProfile`, `CreateReferral`, `UpdateReferral`, `DeleteReferral`) are module-level methods that take the table as a parameter. Each is tied to a pure outcome function, and the properties are proved about those functions.

Outside calls become parameters:
- the clock, as `now`;
- the bcrypt salt;
- the JWT secret;
- the JSON codec used by the context;
- the outcome of each HTTP request, as the page handlers see it.

JavaScript truthiness is spelled out:
- an absent or empty string field is `""`;
- an absent list is `None`, because an empty array is truthy.

Behaviours of the code worth knowing, which the model keeps:
- A failed login, for an unknown email or a wrong password alike, answers 400 "Invalid credentials".
- `createOrUpdateProfile` replies with the whole saved user document. That reply includes the password hash. Only `getProfile` drops the password.
- "Email already in use" is a find-then-insert. It is not an atomic check. The model makes the unique index a precondition of `UserTable.Insert`, and `RegisterUser` only inserts after the check has passed.
- An invalid referral status is not refused by the handler. It fails mongoose's enum validation at `save`, which the handler's catch turns into 500 "Server error".

## Model

| member | source | states |
|---|---|---|
| Jwt.Issue | backend/src/controllers/authController.ts:24 | a token is non-empty and contains no space, so it survives `Bearer <token>` framing |
| Jwt.Verify | backend/src/middleware/authMiddleware.ts:27 | a token without a '.' is malformed; a token is accepted for user u only when its signature part is the secret's and its payload is u's canonical rendering; a bad signature is reported only for a token whose signature part differs |
| Jwt.VerifyIssue | backend/src/middleware/authMiddleware.ts:27 | verifying a token issued under the same secret yields exactly the user id it was issued for |
| Jwt.VerifyOtherSecret | backend/src/middleware/authMiddleware.ts:27 | a token signed with a different secret is refused with a bad signature |
| Jwt.VerifySound | backend/src/middleware/authMiddleware.ts:27-28 | every token that verifies to a user id is the token issued for that id under that secret |
| Bcrypt.HashIsHash | backend/src/models/User.ts:26-27 | every stored hash is well formed |
| Bcrypt.CompareHash | backend/src/models/User.ts:32-36 | `compare(entered, hash(salt, p))` holds if and only if `entered == p` (bcrypt's 72-byte truncation is listed under Left out) |
| Bcrypt.SaltFresh | backend/src/models/User.ts:26-27 | different salts give different hashes of the same password |
| UserModel.PreSave | backend/src/models/User.ts:23-30 | an unmodified password is left alone; a modified one is replaced by a well-formed hash that matches the plaintext (exactly, up to the 72-byte truncation listed under Left out); no other field changes |
| UserModel.ComparePassword | backend/src/models/User.ts:32-36 | a password matches only a stored value that is a well-formed hash; with `Bcrypt.CompareHash`, it matches a hashed password exactly when it is that password |
| UserModel.FindByEmail | backend/src/controllers/authController.ts:15 | with unique emails, the lookup finds the one user with that email, and finds none if no user has it |
| UserModel.UserTable.Insert | backend/src/models/User.ts:14-30 | a new user with the required fields and an unused email is stored under a fresh id with the password hashed; the others are unchanged; ids stay below the counter; emails stay unique |
| UserModel.UserTable.Save | backend/src/models/User.ts:23-30 | saving replaces one user by its pre-saved form and keeps the table invariant |
| ReferralModel.ParseStatus | backend/src/models/Referral.ts:16 | the enum validator accepts exactly the three status names, each as the status of that name |
| ReferralModel.ParseStatusName | backend/src/models/Referral.ts:16 | every status passes validation under its own name, and no two statuses share a name |
| ReferralModel.ReferralTable.Insert | backend/src/models/Referral.ts:11-17 | a referral is stored under a fresh id; the others are unchanged |
| ReferralModel.ReferralTable.Save | backend/src/controllers/referralController.ts:72 | saving replaces one stored referral and nothing else |
| ReferralModel.ReferralTable.Delete | backend/src/controllers/referralController.ts:95 | deleting removes exactly one id |
| ReferralController.NewReferral | backend/src/controllers/referralController.ts:7-21 | a missing title, company or description gives 400; an unknown status gives 500; otherwise 201 with the requester as owner, the given fields, status Pending when none is given, and both timestamps set to now |
| ReferralController.CreateReferral | backend/src/controllers/referralController.ts:6-28 | the reply is that of `NewReferral`; a success stores exactly the returned referral under a fresh id; a failure stores nothing |
| ReferralController.MergeReferral | backend/src/controllers/referralController.ts:67-72 | each given field replaces the stored one and each empty field keeps it; owner and creation time never change; an unknown status gives 500 |
| ReferralController.MergeIdempotent | backend/src/controllers/referralController.ts:67-70 | applying the same update twice gives the same record as applying it once |
| ReferralController.Guard | backend/src/controllers/referralController.ts:56-65 | access is allowed if and only if the referral exists and belongs to the requester; missing and foreign are told apart |
| ReferralController.Refusal | backend/src/controllers/referralController.ts:57-64 | a missing referral answers 404, a foreign one 403 |
| ReferralController.UpdateOutcome | backend/src/controllers/referralController.ts:51-77 | 404 for an unknown id and 403 for another owner's referral; a success is only ever the owner's own referral, merged with the body |
| ReferralController.UpdateReferral | backend/src/controllers/referralController.ts:51-77 | the reply is `UpdateOutcome`; the stored record changes only on success, and then to the returned record |
| ReferralController.DeleteOutcome | backend/src/controllers/referralController.ts:80-96 | success if and only if the referral exists and is the requester's; 404 if and only if it is missing; 403 if and only if it is someone else's |
| ReferralController.DeleteReferral | backend/src/controllers/referralController.ts:80-100 | the reply is `DeleteOutcome`; only a success removes the referral, and it removes nothing else |
| ReferralController.GetUserReferrals | backend/src/controllers/referralController.ts:41-48 | the result is exactly the stored referrals whose owner is the requester |
| ReferralController.OwnedByAfterInsert | backend/src/controllers/referralController.ts:43 | after a create, the creator's list gains exactly the new referral and every other user's list is unchanged |
| ReferralController.OwnedByAfterDelete | backend/src/controllers/referralController.ts:43 | after a delete, the owner's list loses exactly that referral |
| ReferralController.GetAllReferrals | backend/src/controllers/referralController.ts:31-38 | the feed lists every stored referral; the owner is populated with name and email only when the user still exists |
| ReferralController.FeedCoversOwnLists | backend/src/controllers/referralController.ts:33 | a referral is in a user's own list exactly when the public feed holds it with that owner, and then with the same content |
| AuthController.RegistrationError | backend/src/controllers/authController.ts:10-19 | a missing name, email or password gives "All fields are required"; otherwise a taken email gives "Email already in use"; otherwise there is no error |
| AuthController.RegisterUser | backend/src/controllers/authController.ts:6-34 | a refusal is 400 and leaves the table unchanged; a success is 201 and adds exactly one user with the password hashed and no profile data, under a fresh id; the reply carries that id, name and email and a token issued for the id |
| AuthController.LoginUser | backend/src/controllers/authController.ts:37-62 | a login succeeds if and only if some stored user has that email and the password matches its hash; the session is for that user; every failure is 400 "Invalid credentials" |
| AuthController.RegisteredUserCanLogIn | backend/src/controllers/authController.ts:21-22 | a user just registered can log in with the email and password given at registration |
| ProfileController.MergeProfile | backend/src/controllers/profileController.ts:17-20 | each given field replaces the stored one and each absent field keeps it; email and password hash are never touched; the required fields stay present |
| ProfileController.MergeProfileIdempotent | backend/src/controllers/profileController.ts:17-20 | applying the same profile body twice equals applying it once |
| ProfileController.CreateOrUpdateProfile | backend/src/controllers/profileController.ts:5-27 | an unknown user answers 404 and changes nothing; otherwise the merged user is stored, with the hash kept as it is, and returned whole |
| ProfileController.GetProfile | backend/src/controllers/profileController.ts:29-40 | an unknown user answers 404; otherwise the reply is the user's id and fields, except the password |
| ProfileController.WithoutPasswordLosesOnlyPassword | backend/src/controllers/profileController.ts:31 | two users with the same public view differ at most in their password |
| AuthGate.ExtractToken | backend/src/middleware/authMiddleware.ts:18-24 | no token if and only if the header is absent or does not start with "Bearer "; a token never contains a space |
| AuthGate.ExtractTokenIsSecondWord | backend/src/middleware/authMiddleware.ts:24 | the token is the second space-separated word of the header |
| AuthGate.Gate | backend/src/middleware/authMiddleware.ts:18-33 | without a bearer header the reply is 401 "No token provided"; with a token that does not verify it is 401 "Invalid token"; otherwise the request passes with the token's user id |
| AuthGate.GatePassesOnlyIssued | backend/src/middleware/authMiddleware.ts:24-29 | a request passes as user u only when its bearer token is the one issued for u under the server's secret |
| AuthGate.AuthMiddleware | backend/src/middleware/authMiddleware.ts:13-33 | the request either gets the user id and one call to `next`, or gets a 401 reply and no call to `next` |
| ApiClient.FixedMessage | frontend/src/api/api.ts:16-31 | there is a fixed message if and only if the status is 400, 401, 403, 404, 408, 429, 500 or 503 |
| ApiClient.GetErrorMessage | frontend/src/api/api.ts:12-43 | a fixed status gives its fixed message; any other status gives the server's message when there is one, else the "Unexpected error (code: N)" text; no response gives the network message; a setup failure gives its own text |
| ApiClient.FixedMessagesDistinct | frontend/src/api/api.ts:17-31 | two fixed statuses share a message only when both are 400/401 |
| ApiClient.UnexpectedTextNamesStatus | frontend/src/api/api.ts:35 | the fallback text determines the status it names |
| ApiClient.ResponseInterceptor | frontend/src/api/api.ts:66-72 | every failed request is rethrown as a plain error whose message is `getErrorMessage` of it |
| ApiClient.FromAxios | frontend/src/pages/AuthPage.tsx:82-91 | what a catch block sees of an axios error: a response exactly when the error has one, with its status and message; a request unless the request could not be set up |
| ApiClient.FromThrown | frontend/src/api/api.ts:70 | what a catch block sees of the interceptor's `new Error(...)`: no response and no request |
| ApiClient.BearerHeader | frontend/src/api/api.ts:58 | the header is "Bearer " followed by the token |
| ApiClient.InterceptRequest | frontend/src/api/api.ts:53-61 | with a non-empty stored token the Authorization header is set to its bearer form; otherwise the headers are unchanged |
| AuthContext.StoredSession | frontend/src/context/authContext.tsx:33-46 | a session is restored if and only if there are a non-empty stored token and a stored user that parses to a user with a name and an email; it is that token and user |
| AuthContext.SyncedItems | frontend/src/context/authContext.tsx:57-65 | both items are written when token and user are set, and both removed otherwise; other keys are untouched |
| AuthContext.RestoreAfterSync | frontend/src/context/authContext.tsx:33-65 | what sync writes for a session, restore reads back as that session |
| AuthContext.RestoreAfterClear | frontend/src/context/authContext.tsx:33-65 | after a sync without a session, restore finds none |
| AuthContext.AuthProvider.Login | frontend/src/context/authContext.tsx:67-74 | a user without a name or email leaves the session unchanged; otherwise the session becomes that token and user |
| AuthContext.AuthProvider.Logout | frontend/src/context/authContext.tsx:76-79 | the session becomes empty |
| AuthContext.AuthProvider.Restore | frontend/src/context/authContext.tsx:32-54 | the session becomes `StoredSession` of storage when there is one; when a token and user string are present but unusable, both items are removed; loading ends |
| AuthContext.AuthProvider.Sync | frontend/src/context/authContext.tsx:57-65 | storage becomes `SyncedItems` of the current session |
| AuthPage.CollectErrors | frontend/src/pages/AuthPage.tsx:33-43 | each error is reported if and only if its condition holds (no "@", under 6 characters, blank name when registering), in source order; no errors if and only if the form is valid |
| AuthPage.AcceptedLogin | frontend/src/pages/AuthPage.tsx:63-67 | a login reply is accepted when the top-level or nested token and user are both present, with the top-level ones preferred |
| AuthPage.AsWrittenHidesStatus | frontend/src/pages/AuthPage.tsx:82-99 | as written, every failed request shows the same "unexpected error" text, whatever its status; for a 401 the same catch block on the axios error would show "Invalid email or password." |
| AuthPage.CatchBlock | frontend/src/pages/AuthPage.tsx:82-99 | the catch block's branches: a 401 response shows "Invalid email or password."; another response shows its truthy `data.message` or the generic text; a request without response shows the network text; otherwise the "unexpected error" text |
| AuthPage.CaughtMessageAsWritten | frontend/src/pages/AuthPage.tsx:79-99 | the catch block applied to the interceptor's rethrown Error, as the page runs: always the "unexpected error" text, never "Invalid email or password." |
| AuthPage.CaughtMessage | frontend/src/pages/AuthPage.tsx:82-99 | the corrected catch block, handed the axios error itself: 401 shows "Invalid email or password."; another response shows the server message, or a generic text; no response shows the network text |
| AuthPage.CaughtMessageDistinguishes | frontend/src/pages/AuthPage.tsx:82-99 | the corrected handler tells a 401 apart from other statuses and from a network failure |
| AuthPage.AuthPageState.HandleChange | frontend/src/pages/AuthPage.tsx:28-31 | only the named form field changes |
| AuthPage.AuthPageState.ToggleMode | frontend/src/pages/AuthPage.tsx:171-175 | the mode flips and the errors and messages are cleared |
| AuthPage.AuthPageState.ValidateForm | frontend/src/pages/AuthPage.tsx:33-49 | the result is true if and only if the form is valid; on failure the shown errors are exactly those whose conditions hold, each once, in source order (email, password, name) |
| AuthPage.AuthPageState.HandleSubmit | frontend/src/pages/AuthPage.tsx:51-103 | an invalid form posts nothing; an accepted login with an acceptable user sets the session and a success message; a registration switches to login and clears the form; an invalid form shows exactly the errors whose conditions hold, in source order; a failed request shows the catch block's text for the interceptor's rethrown Error, which is always the "unexpected error" text; mode, form and location change only where the code changes them |
| ProfilePage.Normalize | frontend/src/pages/Profile.tsx:43-48 | the fetched profile keeps every field, with absent lists replaced by empty ones |
| ProfilePage.SpliceStart | frontend/src/pages/Profile.tsx:101 | `splice` counts a negative index from the end and clamps at both ends |
| ProfilePage.RemoveAt | frontend/src/pages/Profile.tsx:98-103 | an index in range removes exactly that entry and keeps the others in order; an index past the end removes nothing |
| ProfilePage.RemoveAtMultiset | frontend/src/pages/Profile.tsx:100-101 | the removed entry plus what is left is the original list as a multiset |
| ProfilePage.RemoveAtUndoesAppend | frontend/src/pages/Profile.tsx:94 | removing the last entry undoes an add |
| ProfilePage.SetEducationField | frontend/src/pages/Profile.tsx:75 | only the named education field takes the value |
| ProfilePage.ApplyEmploymentEdit | frontend/src/pages/Profile.tsx:86 | only the edited employment field changes |
| ProfilePage.SubmitError | frontend/src/pages/Profile.tsx:127-135 | a blank name gives "Name is required"; otherwise a non-empty phone that is not exactly ten digits gives the phone message; otherwise there is no error |
| ProfilePage.AsWrittenDropsServerMessage | frontend/src/pages/Profile.tsx:50 | as written, the fallback text is shown even when the server sent a message, which the corrected handler would show |
| ProfilePage.CatchText | frontend/src/pages/Profile.tsx:50 | `err?.response?.data?.message || fallback`: the response's truthy message when there is one, otherwise the fallback |
| ProfilePage.FailureTextAsWritten | frontend/src/pages/Profile.tsx:143 | that expression applied to the interceptor's rethrown Error, as the page runs it at lines 50 and 143: always the fallback text |
| ProfilePage.FailureText | frontend/src/pages/Profile.tsx:50 | the corrected catch block, handed the axios error itself: the server's message is shown when the reply carries one, and the fallback otherwise |
| ProfilePage.ProfilePageState.FetchProfile | frontend/src/pages/Profile.tsx:34-56 | a success shows the normalised profile and clears the error; a failure shows the catch block's text for the interceptor's rethrown Error, which is always "Failed to load profile", in the page and in the error list |
| ProfilePage.ProfilePageState.HandleChange | frontend/src/pages/Profile.tsx:63-66 | with a loaded profile only the named text field changes; without one, nothing changes |
| ProfilePage.ProfilePageState.HandleEducationChange | frontend/src/pages/Profile.tsx:68-77 | only one field of entry `index` changes |
| ProfilePage.ProfilePageState.HandleEmploymentChange | frontend/src/pages/Profile.tsx:79-88 | only one field of entry `index` changes |
| ProfilePage.ProfilePageState.AddEducation | frontend/src/pages/Profile.tsx:90-96 | one empty education entry is appended |
| ProfilePage.ProfilePageState.AddEmployment | frontend/src/pages/Profile.tsx:105-114 | one empty employment entry, with experience 0, is appended |
| ProfilePage.ProfilePageState.RemoveEducation | frontend/src/pages/Profile.tsx:98-103 | the education list becomes `RemoveAt` of it |
| ProfilePage.ProfilePageState.RemoveEmployment | frontend/src/pages/Profile.tsx:116-121 | the employment list becomes `RemoveAt` of it |
| ProfilePage.ProfilePageState.HandleSubmit | frontend/src/pages/Profile.tsx:123-147 | without a profile nothing happens; a validation error is shown and nothing is posted; otherwise the profile is posted, and the outcome adds either the success message or the catch block's text for the interceptor's rethrown Error, which is always "Failed to update profile" |
| EndToEnd.BearerHeaderRoundTrip | frontend/src/api/api.ts:58 | the server's token extraction recovers exactly the token the client framed |
| EndToEnd.IssuedTokenPassesGate | backend/src/middleware/authMiddleware.ts:19-29 | a token issued at login, sent by the client, passes the gate as the logged-in user |
| EndToEnd.ForeignTokenRefused | backend/src/middleware/authMiddleware.ts:27-31 | a token signed under another secret is refused with 401 "Invalid token" |

## Left out

- JWT cryptography and expiry: `Jwt` is a symbolic signature keyed by the secret. It has the round trip and the refusal of foreign tokens. It does not model forgery resistance. `jwt.verify` also refuses an expired token; the model has no clock, so an issued token never expires.
- Jwt.VerifySound: the token carries no issue time (`iat`). A real token for the same user differs at each issue, so "the token issued for that id" holds of the model only.
- bcrypt internals: `Bcrypt.Hash` keeps the plaintext recoverable, which a real hash does not. It says nothing about one-wayness or the cost factor.
- Bcrypt.CompareHash: bcryptjs uses only the first 72 bytes of the UTF-8 password. Two passwords that share those bytes compare equal, so the "only if" direction holds of the model only, for passwords of at most 72 bytes. The same applies to `UserModel.PreSave` and `AuthController.LoginUser`.
- Storage failures: the 500 answers of every handler's catch block are not modelled (the referral and auth handlers answer with the message "Server error"; the profile handlers answer with only the error, no message). The exception is the invalid-status 500, which the model covers.
- Concurrency: two registrations with the same email racing between `findOne` and `save` are not modelled. The unique index is a precondition of `UserTable.Insert`.
- Result order: `Referral.find()` returns an order the store decides. The referral lists are modelled as maps keyed by id.
- Identifier types: ObjectId strings and their `toString()` comparison are modelled as natural-number ids.
- Express bootstrap, routes and CORS are not modelled (`backend/src/index.ts` and the route files). The gate's user id reaches the handlers as the `requester` parameter.
- Login with an absent email or password: mongoose's treatment of `undefined` in a filter is not modelled; an absent field is the empty string.
- Rendering and timing: the JSX, the loading and saving flags and the three-second delay are not modelled. Navigation is recorded only as the target path (`AuthPageState.location`).
- ProfilePage.ProfilePageState.HandleSubmit: the `fetchProfile()` that follows a save is left to the caller, as a separate `FetchProfile` step with its own outcome.
- AuthContext.AuthProvider: the order in which React runs the two effects on mount is not modelled. The sync effect also runs once with the initial empty session and briefly removes the stored items. The model has restore and sync as separate steps.
- JSON encoding: `JSON.stringify` and `JSON.parse` are a codec parameter. The round-trip lemma assumes the codec round-trips the user.
- String length: `length` is counted in characters, not UTF-16 code units. This matters only for the six-character password rule on astral characters.
- ProfilePage.ProfilePageState.HandleEducationChange: an index past the end of the list creates a sparse array in JavaScript. The model requires an index inside the list.
- ProfilePage.ProfilePageState.HandleEmploymentChange: the same requirement on the index, for the same reason.
- AuthController.RegisterUser: the success reply's constant `message` text is not carried.
- Thin wrappers are not modelled: the per-resource API files, the Navbar, Dashboard, Feed and the form components.

## Findings

| source | as written | input that shows it | evidently intended | confidence | as-written member | corrected member |
|---|---|---|---|---|---|---|
| frontend/src/pages/AuthPage.tsx:82-99 | the catch inspects `err.response` and `err.request`, but the response interceptor (frontend/src/api/api.ts:66-72) rethrows every failure as a plain `Error` with neither, so every failure shows "An unexpected error occurred. Please try again later." | a login answered with 401: the 401 branch is never taken | a 401 shows "Invalid email or password."; another status shows the server's message; a network failure shows the network text | high (not executed) | AuthPage.AsWrittenHidesStatus | AuthPage.CaughtMessage |
| frontend/src/pages/Profile.tsx:50 | `err?.response?.data?.message` is read from the plain `Error` the interceptor throws, so it is always undefined and the fallback is always shown; the same happens at line 143 | a profile save refused with a server message such as "User not found" shows "Failed to update profile" | the server's message is shown when there is one | high (not executed) | ProfilePage.AsWrittenDropsServerMessage | ProfilePage.FailureText |
