/**
 * The account store as the service sees it: a sequence of records indexed by
 * id (ids are handed out in creation order), the two lookups the service makes
 * (`findOneByAny('email', …)` and `findOneByAny('_id', …)`), the partial
 * update, and the read-only guard chains of verifyAccount, signIn and the
 * password change.
 */
module Store {
  import opened Wrappers
  import opened Users

  /** Every record sits at the position named by its id. */
  ghost predicate IdsArePositions(users: seq<User>)
  {
    forall i | 0 <= i < |users| :: users[i].id == i
  }

  /** The position of the first record with this email, if any. */
  function FindByEmail(users: seq<User>, email: string): (r: Option<nat>)
    ensures r.Some? ==> r.value < |users| && users[r.value].email == email
    ensures r.Some? ==> forall j | 0 <= j < r.value :: users[j].email != email
    ensures r.None? <==> forall j | 0 <= j < |users| :: users[j].email != email
  {
    if users == [] then None
    else
      match FindByEmail(users[..|users| - 1], email)
      case Some(i) => Some(i)
      case None => if users[|users| - 1].email == email then Some(|users| - 1) else None
  }

  /** `findOneByAny('email', email)`: the first record with that email, or null. */
  function Account(users: seq<User>, email: string): (r: Option<User>)
    ensures r.None? <==> forall i | 0 <= i < |users| :: users[i].email != email
    ensures r.Some? ==> r.value in users && r.value.email == email
    ensures r.Some? ==> exists i | 0 <= i < |users| :: users[i] == r.value && forall j | 0 <= j < i :: users[j].email != email
  {
    match FindByEmail(users, email)
    case None => None
    case Some(i) => Some(users[i])
  }

  /** `findOneByAny('_id', id)`: on a store whose ids are positions, the record with that id, or null. */
  function Lookup(users: seq<User>, id: nat): (r: Option<User>)
    ensures IdsArePositions(users) ==> (r.Some? <==> exists i | 0 <= i < |users| :: users[i].id == id)
    ensures IdsArePositions(users) && r.Some? ==> r.value.id == id && r.value in users
  {
    if id < |users| then Some(users[id]) else None
  }

  /**
   * The store after `update(id, p)`: only the record with that id changes, in
   * the fields the patch names; an unknown id writes nothing.
   */
  function Updated(users: seq<User>, id: nat, p: Patch): (r: seq<User>)
    ensures |r| == |users|
    ensures forall j | 0 <= j < |users| && j != id :: r[j] == users[j]
    ensures id < |users| ==> r[id] == Apply(users[id], p)
    ensures IdsArePositions(users) ==> IdsArePositions(r)
  {
    if id < |users| then users[id := Apply(users[id], p)] else users
  }

  /** A lookup by email gives the same answer on two stores whose records carry the same emails. */
  lemma FindByEmailSameEmails(users: seq<User>, users': seq<User>, email: string)
    requires |users| == |users'|
    requires forall i | 0 <= i < |users| :: users[i].email == users'[i].email
    ensures FindByEmail(users', email) == FindByEmail(users, email)
  {
  }

  /**
   * A write that leaves every email alone (activation, a password change, an
   * avatar) leaves the email lookup's answer unchanged.
   */
  lemma EmailLookupKept(users: seq<User>, id: nat, p: Patch, email: string)
    requires p.email.None?
    ensures FindByEmail(Updated(users, id, p), email) == FindByEmail(users, email)
    ensures Account(Updated(users, id, p), email).None? <==> Account(users, email).None?
  {
    FindByEmailSameEmails(users, Updated(users, id, p), email);
  }

  /** A record appended under an email no record carries yet is the one that email finds. */
  lemma FindByEmailAppended(users: seq<User>, u: User)
    requires FindByEmail(users, u.email).None?
    ensures FindByEmail(users + [u], u.email) == Some(|users|)
  {
  }

  /**
   * verifyAccount's checks, in their order: the email must exist, the account
   * must not be active yet, and the token must be the stored one. On success,
   * the id of the account to activate.
   */
  function VerifyGuard(users: seq<User>, email: string, token: string): (r: Result<nat, Error>)
    ensures r == Failure(EmailNotFound) <==> forall i | 0 <= i < |users| :: users[i].email != email
    ensures r == Failure(AlreadyActive) <==> Account(users, email).Some? && Account(users, email).value.isActive
    ensures r == Failure(InvalidToken) <==>
      && Account(users, email).Some?
      && !Account(users, email).value.isActive
      && Account(users, email).value.verifyToken != Some(token)
    ensures r.Success? <==>
      && Account(users, email).Some?
      && !Account(users, email).value.isActive
      && Account(users, email).value.verifyToken == Some(token)
    ensures r.Success? ==>
      && Lookup(users, r.value) == Account(users, email)
      && users[r.value].email == email
      && !users[r.value].isActive
      && users[r.value].verifyToken == Some(token)
  {
    match FindByEmail(users, email)
    case None => Failure(EmailNotFound)
    case Some(i) =>
      if users[i].isActive then Failure(AlreadyActive)
      else if users[i].verifyToken != Some(token) then Failure(InvalidToken)
      else Success(i)
  }

  /**
   * signIn: the email must exist, the account must be active, and the password
   * must match; only then is the account's profile view returned. It never
   * writes the store.
   */
  function SignIn(users: seq<User>, email: string, password: string): (r: Result<View, Error>)
    ensures r == Failure(EmailNotFound) <==> forall i | 0 <= i < |users| :: users[i].email != email
    ensures r == Failure(NotActive) <==> Account(users, email).Some? && !Account(users, email).value.isActive
    ensures r == Failure(IncorrectCredentials) <==>
      && Account(users, email).Some?
      && Account(users, email).value.isActive
      && !Matches(password, Account(users, email).value.password)
    ensures r.Success? <==>
      && Account(users, email).Some?
      && Account(users, email).value.isActive
      && Matches(password, Account(users, email).value.password)
    ensures r.Success? ==>
      && r.value == ProfileView(Account(users, email))
      && r.value[Email] == Str(email)
      && r.value[IsActive] == Flag(true)
      && Password !in r.value && VerifyToken !in r.value
  {
    match Account(users, email)
    case None => Failure(EmailNotFound)
    case Some(u) =>
      if !u.isActive then Failure(NotActive)
      else if !Matches(password, u.password) then Failure(IncorrectCredentials)
      else Success(ProfileView(Some(u)))
  }

  /**
   * The password change's checks: the user must exist and the current
   * password must match its digest. On success, the record found.
   */
  function PasswordGuard(users: seq<User>, id: nat, currentPassword: string): (r: Result<User, Error>)
    ensures r == Failure(UserNotFound) <==> |users| <= id
    ensures r == Failure(IncorrectCurrentPassword) <==> id < |users| && !Matches(currentPassword, users[id].password)
    ensures r.Success? <==> id < |users| && Matches(currentPassword, users[id].password)
    ensures r.Success? ==> r.value == users[id]
  {
    match Lookup(users, id)
    case None => Failure(UserNotFound)
    case Some(u) =>
      if !Matches(currentPassword, u.password) then Failure(IncorrectCurrentPassword) else Success(u)
  }
}
