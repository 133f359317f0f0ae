/**
 * The model tests of the users table, each as a client of `Users.Store`
 * that starts from an empty table. Random emails, names, passwords, pids,
 * salts and tokens are parameters.
 */
module UserScenarios {
  import opened Wrappers
  import Users
  import Password

  /** can_create_with_password: the new row holds the given identity and a hash of the password. */
  method CanCreateWithPassword(params: Users.RegisterParams, pid: string, salt: string)
    returns (created: Result<Users.User, Users.ModelError>)
    ensures created.Ok? && Users.IsFresh(created.value)
    ensures created.value.email == params.email && created.value.name == params.name && created.value.pid == pid
    ensures Users.VerifyPassword(created.value, params.password)
  {
    var store := new Users.Store();
    created := store.CreateWithPassword(params, pid, salt);
  }

  /** handle_create_with_password_with_duplicate: a second account with the same email is refused. */
  method HandleCreateWithPasswordWithDuplicate(
    first: Users.RegisterParams, pid: string, salt: string,
    password: string, name: string, otherPid: string, otherSalt: string)
    returns (duplicate: Result<Users.User, Users.ModelError>, rows: seq<Users.User>)
    ensures duplicate == Err(Users.EntityAlreadyExists)
    ensures rows == [Users.NewUser(first, pid, salt)]
  {
    var store := new Users.Store();
    var _ := store.CreateWithPassword(first, pid, salt);
    duplicate := store.CreateWithPassword(Users.RegisterParams(first.email, password, name), otherPid, otherSalt);
    rows := store.rows;
  }

  /** can_find_by_email: the created user is found by its email, an unknown email is not found. */
  method CanFindByEmail(params: Users.RegisterParams, pid: string, salt: string, unknown: string)
    returns (existing: Result<Users.User, Users.ModelError>, missing: Result<Users.User, Users.ModelError>)
    requires unknown != params.email
    ensures existing == Ok(Users.NewUser(params, pid, salt))
    ensures missing == Err(Users.EntityNotFound)
  {
    var store := new Users.Store();
    var _ := store.CreateWithPassword(params, pid, salt);
    existing := Users.FindByEmail(store.rows, params.email);
    missing := Users.FindByEmail(store.rows, unknown);
  }

  /** can_find_by_pid: the created user is found by its pid, an unknown pid is not found. */
  method CanFindByPid(params: Users.RegisterParams, pid: string, salt: string, unknown: string)
    returns (existing: Result<Users.User, Users.ModelError>, missing: Result<Users.User, Users.ModelError>)
    requires unknown != pid
    ensures existing == Ok(Users.NewUser(params, pid, salt))
    ensures missing == Err(Users.EntityNotFound)
  {
    var store := new Users.Store();
    var _ := store.CreateWithPassword(params, pid, salt);
    existing := Users.FindByPid(store.rows, pid);
    missing := Users.FindByPid(store.rows, unknown);
  }

  /** can_verification_token: token and sent-at go from absent to set. */
  method CanVerificationToken(params: Users.RegisterParams, pid: string, salt: string, token: string, now: int)
    returns (before: Users.Slot, after: Users.Slot)
    ensures before == Users.Absent
    ensures after == Users.Pending(token, now)
  {
    var store := new Users.Store();
    var created := store.CreateWithPassword(params, pid, salt);
    before := Users.VerificationSlot(created.value);
    var _ := store.SetEmailVerificationSent(pid, token, now);
    var found := Users.FindByPid(store.rows, pid);
    after := Users.VerificationSlot(found.value);
  }

  /** can_set_forgot_password_sent: reset token and sent-at go from absent to set. */
  method CanSetForgotPasswordSent(params: Users.RegisterParams, pid: string, salt: string, token: string, now: int)
    returns (before: Users.Slot, after: Users.Slot)
    ensures before == Users.Absent
    ensures after == Users.Pending(token, now)
  {
    var store := new Users.Store();
    var created := store.CreateWithPassword(params, pid, salt);
    before := Users.ResetSlot(created.value);
    var _ := store.SetForgotPasswordSent(pid, token, now);
    var found := Users.FindByPid(store.rows, pid);
    after := Users.ResetSlot(found.value);
  }

  /** can_verified: email_verified_at goes from absent to present. */
  method CanVerified(params: Users.RegisterParams, pid: string, salt: string, now: int)
    returns (before: Option<int>, after: Option<int>)
    ensures before == None
    ensures after == Some(now)
  {
    var store := new Users.Store();
    var created := store.CreateWithPassword(params, pid, salt);
    before := created.value.emailVerifiedAt;
    var _ := store.Verified(pid, now);
    var found := Users.FindByPid(store.rows, pid);
    after := found.value.emailVerifiedAt;
  }

  /** can_reset_password: the original password verifies before, the new one after. */
  method CanResetPassword(params: Users.RegisterParams, pid: string, salt: string, newPassword: string, newSalt: string)
    returns (originalBefore: bool, newAfter: bool, originalAfter: bool)
    ensures originalBefore && newAfter
    ensures originalAfter <==> newPassword == params.password
  {
    var store := new Users.Store();
    var created := store.CreateWithPassword(params, pid, salt);
    originalBefore := Users.VerifyPassword(created.value, params.password);
    var reset := store.ResetPassword(pid, newPassword, newSalt);
    var found := Users.FindByPid(store.rows, pid);
    Users.ResetReplacesPassword(created.value, params.password, newPassword, newSalt);
    newAfter := Users.VerifyPassword(found.value, newPassword);
    originalAfter := Users.VerifyPassword(found.value, params.password);
  }

  /**
   * magic_link: token and expiration start absent; afterwards the token has
   * MAGIC_LINK_LENGTH characters and the expiration lies between now and
   * now + MAGIC_LINK_EXPIRATION_MIN.
   */
  method MagicLink(params: Users.RegisterParams, pid: string, salt: string, token: string, now: int)
    returns (before: Users.Slot, after: Users.Slot)
    requires |token| == Users.MAGIC_LINK_LENGTH
    ensures before == Users.Absent
    ensures after.Pending? && |after.token| == Users.MAGIC_LINK_LENGTH
    ensures now <= after.at <= now + Users.MAGIC_LINK_EXPIRATION_MIN
  {
    var store := new Users.Store();
    var created := store.CreateWithPassword(params, pid, salt);
    before := Users.MagicLinkSlot(created.value);
    var _ := store.CreateMagicLink(pid, token, now);
    var found := Users.FindByPid(store.rows, pid);
    after := Users.MagicLinkSlot(found.value);
  }
}
