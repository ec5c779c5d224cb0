/**
 * The request data of a profile update, the branch it selects, and the
 * "update cards' comments" job that carries an updated user to the worker
 * that refreshes the display name and avatar copied into comments.
 */
module Propagation {
  import opened Wrappers
  import opened Users

  /**
   * The body of a profile update. Absent keys are `None`; `currentPassword`
   * and `newPassword` select the password change, the other keys are written
   * as given by the general branch.
   */
  datatype UpdateData = UpdateData(
    currentPassword: Option<string>,
    newPassword: Option<string>,
    email: Option<string>,
    username: Option<string>,
    displayName: Option<string>,
    avatar: Option<string>)

  /** JavaScript truthiness of an optional string: present and not empty. */
  predicate Truthy(s: Option<string>)
  {
    s.Some? && s.value != ""
  }

  predicate IsPasswordChange(data: UpdateData)
  {
    Truthy(data.currentPassword) && Truthy(data.newPassword)
  }

  /** The general branch writes the profile keys of the body as given. */
  function DataPatch(data: UpdateData): Patch
  {
    Patch(data.email, data.username, data.displayName, data.avatar, None, None, None)
  }

  /** The three branches of update, in their priority order. */
  datatype Branch = AvatarUpload | PasswordChange | General

  function SelectBranch(hasFile: bool, data: UpdateData): (b: Branch)
    ensures b == AvatarUpload <==> hasFile
    ensures b == PasswordChange <==> !hasFile && Truthy(data.currentPassword) && Truthy(data.newPassword)
    ensures b == General <==> !hasFile && (!Truthy(data.currentPassword) || !Truthy(data.newPassword))
  {
    if hasFile then AvatarUpload
    else if IsPasswordChange(data) then PasswordChange
    else General
  }

  /**
   * The flag `shouldUpdateCardsComments` as the branches leave it: set by an
   * upload, and by the general branch when the body carries a truthy
   * displayName.
   */
  function ShouldPropagate(hasFile: bool, data: UpdateData): bool
  {
    match SelectBranch(hasFile, data)
    case AvatarUpload => true
    case PasswordChange => false
    case General => Truthy(data.displayName)
  }

  /**
   * The decision rule: an upload always propagates, a password change never
   * does, and otherwise exactly a non-empty displayName does; an avatar URL
   * sent in the body without a file, or any other key, never propagates.
   */
  lemma PropagationRule(hasFile: bool, data: UpdateData)
    ensures ShouldPropagate(hasFile, data) <==> hasFile || (!IsPasswordChange(data) && Truthy(data.displayName))
    ensures !hasFile && IsPasswordChange(data) ==> !ShouldPropagate(hasFile, data)
    ensures !hasFile && data.displayName.None? ==> !ShouldPropagate(hasFile, data)
  {
  }

  datatype JobOptions = JobOptions(attempts: nat, backoff: nat)

  /** A job added to a named queue: its payload and its retry options. */
  datatype Job = Job(queue: string, payload: Option<User>, options: JobOptions)

  const CommentsQueue := "updateCardsCommentsQueue"

  /** Three attempts, 1000 ms apart. */
  const CommentsRetry := JobOptions(3, 1000)

  function CommentsJob(updatedUser: Option<User>): Job
  {
    Job(CommentsQueue, updatedUser, CommentsRetry)
  }
}
