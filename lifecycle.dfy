/**
 * Properties that relate several operations: the account lifecycle from
 * registration through verification to sign-in, and the effect of a password
 * change on later sign-ins.
 */
module Lifecycle {
  import opened Wrappers
  import opened Users
  import opened Store
  import opened Propagation

  /**
   * Registering an unused email creates an account that cannot sign in until
   * it is verified with its own token; after verification the right password
   * signs in, a wrong one is refused, a second verification reports the
   * account as already active, and registering the same email again is
   * refused.
   */
  lemma NewAccountLifecycle(
    users: seq<User>, email: string, password: string, token: string, other: string, wrong: string)
    requires Account(users, email).None?
    requires other != token && wrong != password
    ensures var created := users + [NewUser(|users|, email, password, token)];
      && Account(created, email).Some?
      && SignIn(created, email, password) == Failure(NotActive)
      && VerifyGuard(created, email, other) == Failure(InvalidToken)
      && VerifyGuard(created, email, token) == Success(|users|)
      && var active := Updated(created, |users|, ActivatePatch);
         && SignIn(active, email, password).Success?
         && SignIn(active, email, wrong) == Failure(IncorrectCredentials)
         && VerifyGuard(active, email, token) == Failure(AlreadyActive)
  {
  }

  /** Once a verification succeeds, any further one for that email fails as already active. */
  lemma VerifyTwiceFails(users: seq<User>, email: string, token: string, token': string)
    requires VerifyGuard(users, email, token).Success?
    ensures var i := VerifyGuard(users, email, token).value;
      VerifyGuard(Updated(users, i, ActivatePatch), email, token') == Failure(AlreadyActive)
  {
    EmailLookupKept(users, VerifyGuard(users, email, token).value, ActivatePatch, email);
  }

  /**
   * After a successful password change on an active account that its email
   * finds, the new password signs in and the old one, when different, no
   * longer does; the email lookup still finds the same account.
   */
  lemma PasswordChangeTakesEffect(
    users: seq<User>, id: nat, currentPassword: string, newPassword: string)
    requires PasswordGuard(users, id, currentPassword).Success?
    requires users[id].isActive
    requires FindByEmail(users, users[id].email) == Some(id)
    ensures var changed := Updated(users, id, PasswordPatch(newPassword));
      && FindByEmail(changed, users[id].email) == Some(id)
      && SignIn(changed, users[id].email, newPassword).Success?
      && (currentPassword != newPassword ==>
            SignIn(changed, users[id].email, currentPassword) == Failure(IncorrectCredentials))
  {
    EmailLookupKept(users, id, PasswordPatch(newPassword), users[id].email);
  }

  /**
   * A general update of an existing account that carries a non-empty
   * displayName propagates, and the record it hands to the queue already holds
   * the new displayName and keeps the account's avatar unless the body set one.
   */
  lemma DisplayNameJobCarriesNewName(users: seq<User>, id: nat, data: UpdateData)
    requires id < |users|
    requires !IsPasswordChange(data) && Truthy(data.displayName)
    ensures ShouldPropagate(false, data)
    ensures var payload := Lookup(Updated(users, id, DataPatch(data)), id);
      && payload.Some?
      && payload.value.displayName == data.displayName.value
      && payload.value.avatar == (if data.avatar.Some? then data.avatar else users[id].avatar)
      && payload.value.password == users[id].password
  {
  }
}
