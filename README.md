# User account service: lifecycle and profile-update rules

This project models the account lifecycle of a task-board application's user
service (`src/services/user.service.js`) and proves its decision rules in Dafny.

- **createNew** registers an email address. It creates an inactive account whose username and display name are the email's local part.
- **verifyAccount** activates an account that presents its verification token.
- **signIn** checks that the account exists, is active and has a matching password.
- **update** changes a profile in one of three branches, in priority order:
  - an avatar upload;
  - a password change;
  - a general write of the request body.

  It decides whether to add one "update cards' comments" job to a durable queue. That job copies the user's new display name and avatar into their comments.

Every operation returns a `pick` projection of the stored record.

Layout:

- `wrappers.dfy`: `Option` (a record or null) and `Result` (a value or a thrown error).
- `users.dfy`: the user record, the partial writes of the store's update, the username derivation, the document view of a record and the `pick` projections.
- `store.dfy`: the account store as a sequence indexed by id, its two lookups and its update. It also holds the read-only guard chains of verifyAccount, signIn and the password change, as functions.
- `propagation.dfy`: the body of an update, the branch it selects, the propagation flag and the queued job with its options (3 attempts, 1000 ms backoff).
- `user_service.dfy`: class `Service`. Its `users` field is the account store and its `jobs` field is the queue's contents. Its methods `CreateNew`, `VerifyAccount` and `Update` change them step by step, as the source does. `Valid()` says that every record sits at its id and that every job goes to `updateCardsCommentsQueue` with the fixed retry options.
- `lifecycle.dfy`: lemmas that relate several operations.

Modelling choices:

- The store is a sequence. A record's id is its position, and ids are handed out in creation order. A lookup by email returns the first record with that email.
- The store's `update(id, fields)` writes the given fields into the record with that id and returns the updated record. On an unknown id it writes nothing and returns null. `pick` of null is the empty view, and the avatar branch then still queues a job whose payload is null.
- The generated uuid is a parameter of `CreateNew`. How the verification mail's send settled is a parameter too (`Pass`, or `Fail` with the provider's error). How the upload settled is a parameter of `Update` (the URL it returns, or its error).
- The persistence layer behind the store is not shown. The store is modelled as the `users` sequence above, with the lookups and the partial update described here.
- Password hashing is idealised as collision-free: `Digest(plain)` stands for the digest of the password `plain`, so `Matches(p, Hash(q))` holds exactly when `p == q`.
- Truthiness of a request field means present and non-empty.

The intended rule for propagation is that comments need refreshing exactly when the user's avatar or display name changed. The code decides differently, and the model follows the code:

- the code propagates after an upload, or when the general branch's body carries a non-empty `displayName`, whether or not that name changed;
- it does not propagate when `displayName` is set to the empty string;
- it does not propagate when an avatar URL is sent in the body without a file.

The code also queues the whole updated record as the payload, password digest and verification token included, rather than a snapshot of display fields. The model queues the record.

## Model

| member | source | states |
|---|---|---|
| `Users.LocalPart` | src/services/user.service.js:23 | the username is a prefix of the email containing no '@', and it stops exactly at the first '@' (or is the whole email when there is none) |
| `Users.Pick` | src/services/user.service.js:212 | lodash `pick`: the result holds exactly the listed keys the document has, each with the document's value |
| `Users.NewUser` | src/services/user.service.js:24-30 | the inserted document has the given email, a username that is the text before the first '@', a displayName equal to the username, a digest that only the given password matches, the token, no avatar, and is inactive |
| `Users.Apply` | src/services/user.service.js:66-69 | a partial write gives every field the patch names the patch's value (`verifyToken: null` writes null), and keeps the id and every field the patch does not name; an empty patch changes nothing |
| `Users.ViewsHideSecrets` | src/services/user.service.js:45 | the profile and brief projections never contain the password digest or the verification token and hold only listed keys; null projects to `{}`, and a record to exactly its listed keys with its own id, email, username and displayName |
| `Users.MessagesDistinct` | src/services/user.service.js:18-155 | documents the message texts: each of the service's own errors is thrown with its own text, so a caller can tell them apart by message alone |
| `Store.FindByEmail` | src/services/user.service.js:16 | the email lookup returns the first record carrying that email, and none exactly when no record carries it |
| `Store.Account` | src/services/user.service.js:16 | the email lookup finds nothing exactly when no record carries the email; otherwise it finds a stored record with that email, and no earlier record carries that email |
| `Store.FindByEmailSameEmails` | src/services/user.service.js:16 | the email lookup depends only on the emails the records carry: two stores of the same size whose records carry the same emails give the same answer |
| `Store.EmailLookupKept` | src/services/user.service.js:66-69 | a write that names no email (activation at :66-69, a password change at :158-160, an avatar at :143) leaves the email lookup's answer unchanged for every email |
| `Store.Lookup` | src/services/user.service.js:149 | on a store whose ids are positions, the id lookup finds a record exactly when one has that id, and then that record |
| `Store.Updated` | src/services/user.service.js:163 | the store's update keeps the store's size and every other record, replaces the record with that id by its patched version, writes nothing for an unknown id, and keeps ids at their positions |
| `Store.VerifyGuard` | src/services/user.service.js:53-64 | "Email not found." exactly when no record has the email, then "already active" exactly when the account found is active, then "Invalid token." exactly when the token differs; and success exactly when the account found is inactive and holds that token, naming that account |
| `Store.SignIn` | src/services/user.service.js:77-114 | "Email not found.", then "not active", then "email or password is incorrect", each exactly in its case, and success exactly when the account found is active and the password matches; success returns that account's profile view, without secrets |
| `Store.PasswordGuard` | src/services/user.service.js:149-156 | "User not found." exactly for an unknown id, then "curent password is incorrect" exactly when the current password does not match the stored digest, and success exactly when the user exists and it matches |
| `Propagation.SelectBranch` | src/services/user.service.js:140-167 | the upload branch is taken exactly when a file is present; otherwise the password branch exactly when both passwords are non-empty; otherwise the general branch |
| `Propagation.PropagationRule` | src/services/user.service.js:138-166 | the propagation flag `ShouldPropagate` is set exactly by an upload or by a general update with a non-empty displayName; a password change never sets it |
| `UserService.Service.Write` | src/services/user.service.js:163 | the store's update writes the given fields into the record with that id, writes nothing for an unknown id, and returns the updated record or null |
| `UserService.Service.CreateNew` | src/services/user.service.js:14-49 | a taken email fails with "Email already exist." and leaves the store unchanged; otherwise exactly one inactive record is appended, with username = displayName = local part of the email, the hashed password and the token, and the email now finds it; a failed verification mail is reported as an error after the record is stored, and the record stays |
| `UserService.Service.VerifyAccount` | src/services/user.service.js:51-75 | every guard failure returns its error and leaves the store unchanged; success sets isActive and clears verifyToken on that record only, changing no other field, and returns its brief view |
| `UserService.Service.Update` | src/services/user.service.js:135-216 | an upload writes only the avatar, and a failed upload writes nothing and queues nothing; else a password change writes only the new digest after the user exists and the current password matches, and fails with no write otherwise; else the body is written as given; exactly one job carrying the updated record with attempts 3 and backoff 1000 is queued exactly when the flag is set |
| `Lifecycle.NewAccountLifecycle` | src/services/user.service.js:14-91 | a new account cannot sign in until verified with its own token; after that the right password signs in, a wrong one is refused, re-verification reports "already active", and re-registration (also after a failed verification mail) is refused |
| `Lifecycle.VerifyTwiceFails` | src/services/user.service.js:58-69 | after a successful verification every further one for that email fails with "already active", whatever the token |
| `Lifecycle.PasswordChangeTakesEffect` | src/services/user.service.js:147-160 | after a successful password change the new password signs in and a different old password is refused |
| `Lifecycle.DisplayNameJobCarriesNewName` | src/services/user.service.js:161-209 | a general update with a non-empty displayName propagates a record that already holds the new name and keeps the password digest |

## Left out

- `Store.SignIn`: does not return the access and refresh tokens. Token signing is a foreign collaborator that is not part of this model; the function returns the profile view and the guard outcome.
- `refreshToken` (lines 116-133) is a thin wrapper over token verification and signing, which are not part of this model.
- Sending the verification email (lines 35-43) is outbound I/O. The model keeps only how the send settled. The verification link and its HTML text are not modelled.
- The queue runtime is asynchronous, concurrent library behaviour that is not part of this model (lines 174-204). This covers its scheduling, retries and backoff timing, the `process` handler, the `completed` and `failed` listeners, and the comment store's `updateManyComments`. The model records only the job that is added, with its payload and options. It also does not capture that each propagating update registers another processor.
- bcrypt salting, cost factor and its 72-byte input limit are not modelled, because the hash is idealised as collision-free.
- The `role` key: the store's default for it is not visible. Model records have no role, so views have no `Role` entry.
- The `avatar` and `isActive` keys: whether a stored document carries them before they are set is a store default that is not visible, like `role`. Model records always carry both (`avatar` as null until one is set), so every profile view of a record has both keys.
- The store's own filtering of update fields is not visible. The body is modelled with the keys `email`, `username`, `displayName` and `avatar`. Other keys are not written. This includes a lone `currentPassword` or `newPassword` that reaches the general branch.
- Each operation runs atomically. Interleaving of concurrent requests is not modelled. For example, two concurrent registrations of one email can both pass the duplicate check in the source.
- `throw new Error(error)` re-wraps every error, so the caller sees the message prefixed with `Error: `. The model returns the tagged error, and `Users.Message` gives its text. Logging calls are not modelled.
- Request validation (a missing email, a malformed id) belongs to layers that are not part of this model.
- UserService.Service.CreateNew: does not model a failure of the store's own lookups or insert (lines 16, 32-33); every store call succeeds. A failed mail is modelled.
- UserService.Service.VerifyAccount: does not model a failure of the store's own lookup or update (lines 53, 66-69).
- UserService.Service.Update: does not model a failure of the store's own lookup or update (lines 143, 149, 158-163) or of adding the job (line 206). A failed upload is modelled.
