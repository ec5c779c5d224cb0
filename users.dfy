/**
 * The user record of the account store, the partial writes the store accepts,
 * the username derived from an email address, and the `pick` projections
 * through which the service returns a record to its caller.
 */
module Users {
  import opened Wrappers

  /** The errors the service raises, one per message it throws. */
  datatype Error =
    | EmailAlreadyExist
    | EmailNotFound
    | AlreadyActive
    | InvalidToken
    | NotActive
    | IncorrectCredentials
    | UserNotFound
    | IncorrectCurrentPassword
    | MailFailed(cause: string)
    | UploadFailed(cause: string)

  /** The errors the service raises itself, as opposed to those of the mail and upload providers. */
  predicate Raised(e: Error)
  {
    !e.MailFailed? && !e.UploadFailed?
  }

  /**
   * The exact message text of each error the service raises (the last one
   * keeps the source's spelling); a provider's error carries its own text.
   */
  function Message(e: Error): string
  {
    match e
    case EmailAlreadyExist => "Email already exist."
    case EmailNotFound => "Email not found."
    case AlreadyActive => "Your account is already active."
    case InvalidToken => "Invalid token."
    case NotActive => "Your account is not active."
    case IncorrectCredentials => "Your email or password is incorrect."
    case UserNotFound => "User not found."
    case IncorrectCurrentPassword => "Your curent password is incorrect."
    case MailFailed(cause) => cause
    case UploadFailed(cause) => cause
  }

  /** Different errors are reported with different messages. */
  lemma MessagesDistinct(e1: Error, e2: Error)
    requires Raised(e1) && Raised(e2) && e1 != e2
    ensures Message(e1) != Message(e2)
  {
  }

  /**
   * A password digest. Hashing is idealised as collision-free: the digest
   * stands for the password it was made from, so a password matches exactly
   * its own digest.
   */
  datatype Digest = Digest(plain: string)

  function Hash(password: string): Digest
  {
    Digest(password)
  }

  predicate Matches(password: string, digest: Digest)
  {
    Hash(password) == digest
  }

  /** A stored user document; `avatar` and `verifyToken` may be null. */
  datatype User = User(
    id: nat,
    email: string,
    username: string,
    displayName: string,
    avatar: Option<string>,
    password: Digest,
    verifyToken: Option<string>,
    isActive: bool)

  /**
   * A partial document for the store's update: every `Some` field is written,
   * every `None` field is left as it is. `verifyToken := Some(None)` writes null.
   */
  datatype Patch = Patch(
    email: Option<string>,
    username: Option<string>,
    displayName: Option<string>,
    avatar: Option<string>,
    password: Option<Digest>,
    verifyToken: Option<Option<string>>,
    isActive: Option<bool>)

  /** A record after a partial write: the fields the patch names take its values, the others and the id are kept. */
  function Apply(u: User, p: Patch): (v: User)
    ensures v.id == u.id
    ensures p.email.Some? ==> v.email == p.email.value
    ensures p.username.Some? ==> v.username == p.username.value
    ensures p.displayName.Some? ==> v.displayName == p.displayName.value
    ensures p.avatar.Some? ==> v.avatar == Some(p.avatar.value)
    ensures p.password.Some? ==> v.password == p.password.value
    ensures p.verifyToken.Some? ==> v.verifyToken == p.verifyToken.value
    ensures p.isActive.Some? ==> v.isActive == p.isActive.value
    ensures p.email.None? ==> v.email == u.email
    ensures p.username.None? ==> v.username == u.username
    ensures p.displayName.None? ==> v.displayName == u.displayName
    ensures p.avatar.None? ==> v.avatar == u.avatar
    ensures p.password.None? ==> v.password == u.password
    ensures p.verifyToken.None? ==> v.verifyToken == u.verifyToken
    ensures p.isActive.None? ==> v.isActive == u.isActive
    ensures p == Patch(None, None, None, None, None, None, None) ==> v == u
  {
    User(
      u.id,
      Written(p.email, u.email),
      Written(p.username, u.username),
      Written(p.displayName, u.displayName),
      if p.avatar.Some? then p.avatar else u.avatar,
      Written(p.password, u.password),
      Written(p.verifyToken, u.verifyToken),
      Written(p.isActive, u.isActive))
  }

  /** One field of a partial write: the patch's value when it names one, else the stored value. */
  function Written<T>(patched: Option<T>, stored: T): T
  {
    if patched.Some? then patched.value else stored
  }

  /** `{ verifyToken: null, isActive: true }`, written when an account is verified. */
  const ActivatePatch := Patch(None, None, None, None, None, Some(None), Some(true))

  /** `{ avatar: url }`, written after an upload. */
  function AvatarPatch(url: string): Patch
  {
    Patch(None, None, None, Some(url), None, None, None)
  }

  /** `{ password: hash(newPassword) }`, written by a password change. */
  function PasswordPatch(newPassword: string): Patch
  {
    Patch(None, None, None, None, Some(Hash(newPassword)), None, None)
  }

  /**
   * `email.split('@')[0] || ''`: the text before the first '@', or the whole
   * address when it has none (the `|| ''` fallback yields the same empty string).
   */
  function LocalPart(email: string): (r: string)
    ensures r <= email
    ensures '@' !in r
    ensures |r| < |email| ==> email[|r|] == '@'
  {
    if email == [] || email[0] == '@' then [] else [email[0]] + LocalPart(email[1..])
  }

  /**
   * The document `createNew` inserts: username and displayName both the local
   * part of the email, the hashed password, a fresh verification token, no
   * avatar, not yet active.
   */
  function NewUser(id: nat, email: string, password: string, token: string): (u: User)
    ensures u.id == id && u.email == email
    ensures u.username <= email && '@' !in u.username
    ensures |u.username| < |email| ==> email[|u.username|] == '@'
    ensures u.displayName == u.username
    ensures Matches(password, u.password) && forall q :: Matches(q, u.password) ==> q == password
    ensures u.verifyToken == Some(token) && u.avatar.None? && !u.isActive
  {
    var username := LocalPart(email);
    User(id, email, username, username, None, Hash(password), Some(token), false)
  }

  /** The keys a stored document may carry. */
  datatype Field = Id | Email | Username | DisplayName | Avatar | IsActive | Role | Password | VerifyToken

  datatype Value = Num(n: nat) | Str(s: string) | Flag(b: bool) | Null | Secret(digest: Digest)

  function OrNull(s: Option<string>): Value
  {
    if s.Some? then Str(s.value) else Null
  }

  /** A record as a document; a missing record (null) has no keys. */
  function Doc(o: Option<User>): map<Field, Value>
  {
    match o
    case None => map[]
    case Some(u) =>
      map[Id := Num(u.id), Email := Str(u.email), Username := Str(u.username),
          DisplayName := Str(u.displayName), Avatar := OrNull(u.avatar),
          IsActive := Flag(u.isActive), Password := Secret(u.password),
          VerifyToken := OrNull(u.verifyToken)]
  }

  /** lodash `pick`: the entries of `doc` whose key is listed, and no others. */
  function Pick(doc: map<Field, Value>, keys: set<Field>): (r: map<Field, Value>)
    ensures r.Keys == doc.Keys * keys
    ensures forall k | k in r :: r[k] == doc[k]
  {
    map k | k in doc && k in keys :: doc[k]
  }

  /** The keys returned by createNew, signIn and update. */
  const ProfileKeys: set<Field> := {Id, Email, Username, DisplayName, Avatar, IsActive, Role}

  /** The keys returned by verifyAccount. */
  const BriefKeys: set<Field> := {Id, Email, Username, DisplayName}

  type View = map<Field, Value>

  function ProfileView(o: Option<User>): View
  {
    Pick(Doc(o), ProfileKeys)
  }

  function BriefView(o: Option<User>): View
  {
    Pick(Doc(o), BriefKeys)
  }

  /**
   * Neither projection ever exposes the password digest or the verification
   * token; a missing record projects to the empty view, and a present one to
   * exactly the listed keys it carries, with the record's own values.
   */
  lemma ViewsHideSecrets(o: Option<User>, keys: set<Field>)
    requires keys == ProfileKeys || keys == BriefKeys
    ensures var v := Pick(Doc(o), keys);
      && Password !in v && VerifyToken !in v
      && v.Keys <= keys
      && (o.None? ==> v == map[])
      && (o.Some? ==> v.Keys == keys - {Role}
                      && v[Id] == Num(o.value.id) && v[Email] == Str(o.value.email)
                      && v[Username] == Str(o.value.username)
                      && v[DisplayName] == Str(o.value.displayName))
  {
  }
}
