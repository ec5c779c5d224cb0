/**
 * The user service: registration, account verification and profile update
 * change the account store step by step, and update may add one job to the
 * comments propagation queue. Sign-in only reads the store and is the
 * function `Store.SignIn`.
 */
module UserService {
  import opened Wrappers
  import opened Users
  import opened Store
  import opened Propagation

  class Service {
    /** The account store, indexed by id. */
    var users: seq<User>
    /** Every job added to a queue so far, oldest first. */
    var jobs: seq<Job>

    ghost predicate Valid()
      reads this
    {
      && IdsArePositions(users)
      && forall j | 0 <= j < |jobs| :: jobs[j].queue == CommentsQueue && jobs[j].options == CommentsRetry
    }

    constructor ()
      ensures Valid() && users == [] && jobs == []
    {
      users := [];
      jobs := [];
    }

    /**
     * The store's `update(id, fields)`: writes the given fields into the record
     * with that id and returns the record as updated, or writes nothing and
     * returns null when there is no such record.
     */
    method Write(id: nat, p: Patch) returns (updated: Option<User>)
      requires Valid()
      modifies this`users
      ensures Valid()
      ensures users == Updated(old(users), id, p)
      ensures updated == Lookup(users, id)
      ensures id < |users| ==> updated == Some(Apply(old(users)[id], p))
    {
      if id < |users| {
        users := users[id := Apply(users[id], p)];
      }
      updated := Lookup(users, id);
    }

    /**
     * createNew: refuses an email some account already has; otherwise stores
     * a new inactive account whose username and displayName are the local part
     * of the email, with the hashed password and the verification token
     * (`token` stands for the generated uuid), then sends the verification mail
     * (`mail` stands for how that send settled) and returns the profile view.
     * A failed send is reported after the account is stored, and the account
     * stays.
     */
    method CreateNew(email: string, password: string, token: string, mail: Outcome<string>)
      returns (r: Result<View, Error>)
      requires Valid()
      modifies this`users
      ensures Valid()
      ensures Account(old(users), email).Some? ==> r == Failure(EmailAlreadyExist) && users == old(users)
      ensures Account(old(users), email).None? ==>
        && users == old(users) + [NewUser(|old(users)|, email, password, token)]
        && r == (if mail.Pass? then Success(ProfileView(Some(users[|old(users)|])))
                 else Failure(MailFailed(mail.error)))
      ensures Account(old(users), email).None? ==>
        var u := users[|old(users)|];
        && Account(users, email) == Some(u)
        && u.username <= email && '@' !in u.username
        && (|u.username| < |email| ==> email[|u.username|] == '@')
        && u.displayName == u.username
        && Matches(password, u.password)
        && u.verifyToken == Some(token)
        && u.avatar.None? && !u.isActive
    {
      var existUser := Account(users, email);
      if existUser.Some? {
        return Failure(EmailAlreadyExist);
      }
      var id := |users|;
      var user := NewUser(id, email, password, token);
      users := users + [user];
      assert users[id] == user;
      FindByEmailAppended(old(users), user);
      var getUser := Lookup(users, id);
      if mail.Fail? {
        return Failure(MailFailed(mail.error));
      }
      r := Success(ProfileView(getUser));
    }

    /**
     * verifyAccount: fails, writing nothing, on an unknown email, an account
     * already active, or a token that is not the stored one, in that order;
     * otherwise activates the account and clears its token, changing no other
     * field and no other account, and returns its brief view.
     */
    method VerifyAccount(email: string, token: string) returns (r: Result<View, Error>)
      requires Valid()
      modifies this`users
      ensures Valid()
      ensures match VerifyGuard(old(users), email, token)
        case Failure(e) => r == Failure(e) && users == old(users)
        case Success(i) =>
          && users == old(users)[i := old(users)[i].(isActive := true, verifyToken := None)]
          && r == Success(BriefView(Some(users[i])))
    {
      var existUser := Account(users, email);
      if existUser.None? {
        return Failure(EmailNotFound);
      }
      if existUser.value.isActive {
        return Failure(AlreadyActive);
      }
      if existUser.value.verifyToken != Some(token) {
        return Failure(InvalidToken);
      }
      var updatedUser := Write(existUser.value.id, ActivatePatch);
      r := Success(BriefView(updatedUser));
    }

    /**
     * update: with a file, the file is uploaded (`upload` stands for how the
     * upload settled: the address it returns, or its error) and only the
     * avatar is written; otherwise, with both passwords, the new password's
     * digest is written once the user exists and the current password
     * matches; otherwise the body's keys are written as given. Exactly one
     * comments job, carrying the updated record, is added when a file was
     * uploaded or the general branch had a non-empty displayName. A failed
     * upload writes nothing and adds no job.
     */
    method Update(userId: nat, data: UpdateData, file: Option<seq<bv8>>, upload: Result<string, string>)
      returns (r: Result<View, Error>)
      requires Valid()
      modifies this
      ensures Valid()
      ensures file.Some? && upload.Failure? ==> r == Failure(UploadFailed(upload.error)) && users == old(users)
      ensures file.Some? && upload.Success? ==>
        && users == Updated(old(users), userId, AvatarPatch(upload.value))
        && (userId < |users| ==> users[userId] == old(users)[userId].(avatar := Some(upload.value)))
        && r == Success(ProfileView(Lookup(users, userId)))
      ensures file.None? && IsPasswordChange(data) ==>
        match PasswordGuard(old(users), userId, data.currentPassword.value)
        case Failure(e) => r == Failure(e) && users == old(users)
        case Success(u) =>
          && users == old(users)[userId := u.(password := Hash(data.newPassword.value))]
          && r == Success(ProfileView(Lookup(users, userId)))
      ensures file.None? && !IsPasswordChange(data) ==>
        && users == Updated(old(users), userId, DataPatch(data))
        && r == Success(ProfileView(Lookup(users, userId)))
      ensures jobs == old(jobs) + (if r.Success? && ShouldPropagate(file.Some?, data) then [CommentsJob(Lookup(users, userId))] else [])
    {
      var updatedUser: Option<User> := None;
      var shouldUpdateCardsComments := false;

      if file.Some? {
        if upload.Failure? {
          return Failure(UploadFailed(upload.error));
        }
        updatedUser := Write(userId, AvatarPatch(upload.value));
        shouldUpdateCardsComments := true;
      } else if Truthy(data.currentPassword) && Truthy(data.newPassword) {
        var existUser := Lookup(users, userId);
        if existUser.None? {
          return Failure(UserNotFound);
        }
        if !Matches(data.currentPassword.value, existUser.value.password) {
          return Failure(IncorrectCurrentPassword);
        }
        updatedUser := Write(userId, PasswordPatch(data.newPassword.value));
      } else {
        updatedUser := Write(userId, DataPatch(data));
        if Truthy(data.displayName) {
          shouldUpdateCardsComments := true;
        }
      }

      if shouldUpdateCardsComments {
        jobs := jobs + [CommentsJob(updatedUser)];
      }
      r := Success(ProfileView(updatedUser));
    }
  }
}
