/**
 * The request tests of the authentication endpoints, each as a client of
 * `Auth.Service` that starts from an empty users table and a mailer that
 * has delivered nothing.
 */
module AuthScenarios {
  import opened Wrappers
  import Users
  import Views
  import Session
  import Password
  import Auth

  /** A fresh controller over an empty table. */
  method NewService() returns (service: Auth.Service)
    ensures fresh(service) && fresh(service.users)
    ensures service.Valid() && service.users.rows == [] && service.deliveries == 0
  {
    var store := new Users.Store();
    service := new Auth.Service(store);
  }

  /** can_register: the registered email is stored and holds a verification token. */
  method CanRegister(params: Users.RegisterParams, pid: string, salt: string, verificationToken: string, now: int, sessionToken: string)
    returns (reply: Auth.Reply, saved: Result<Users.User, Users.ModelError>)
    ensures reply.LoggedIn?
    ensures saved.Ok? && saved.value.email == params.email
    ensures Users.VerificationSlot(saved.value) == Users.Pending(verificationToken, now)
  {
    var service := NewService();
    reply := service.Register(params, pid, salt, verificationToken, now, sessionToken);
    saved := Users.FindByEmail(service.users.rows, params.email);
  }

  /**
   * can_login_with_verify: after consuming the stored verification token the
   * email is verified; login then succeeds with the registered password and
   * is unauthorized with any other.
   */
  method CanLoginWithVerify(
    params: Users.RegisterParams, pid: string, salt: string, verificationToken: string, now: int, later: int,
    password: string, sessionToken: string)
    returns (reply: Auth.Reply, verified: bool)
    ensures verified
    ensures password == params.password ==> reply.LoggedIn? && reply.login.isVerified
    ensures password != params.password ==> reply == Auth.Unauthorized
  {
    var service := NewService();
    var _ := service.Register(params, pid, salt, verificationToken, now, sessionToken);
    var stored := Users.FindByEmail(service.users.rows, params.email);
    var _ := service.Verify(stored.value.emailVerificationToken.value, later);
    reply := Auth.Login(service.users.rows, params.email, password, sessionToken);
    Password.VerifyOnlyOriginal(params.password, password, salt);
    var user := Users.FindByEmail(service.users.rows, params.email);
    verified := user.value.emailVerifiedAt.Some?;
  }

  /** can_login_without_verify: login succeeds before verification and reports the email unverified. */
  method CanLoginWithoutVerify(params: Users.RegisterParams, pid: string, salt: string, verificationToken: string, now: int, sessionToken: string)
    returns (reply: Auth.Reply)
    ensures reply.LoggedIn? && !reply.login.isVerified
    ensures reply.login.email == params.email && reply.login.pid == pid && reply.login.token == sessionToken
  {
    var service := NewService();
    var _ := service.Register(params, pid, salt, verificationToken, now, sessionToken);
    reply := Auth.Login(service.users.rows, params.email, params.password, sessionToken);
  }

  /** invalid_verification_token: a token nobody holds is unauthorized and changes nothing. */
  method InvalidVerificationToken(params: Users.RegisterParams, pid: string, salt: string, verificationToken: string, now: int, sessionToken: string, presented: string)
    returns (reply: Auth.Reply, untouched: bool)
    requires presented != verificationToken
    ensures reply == Auth.Unauthorized && untouched
  {
    var service := NewService();
    var _ := service.Register(params, pid, salt, verificationToken, now, sessionToken);
    var before := service.users.rows;
    reply := service.Verify(presented, now);
    untouched := service.users.rows == before;
  }

  /**
   * can_reset_password: forgot sets the reset token and its timestamp, reset
   * with that token clears both, login succeeds with the new password, and
   * the used token is refused afterwards.
   */
  method CanResetPassword(
    params: Users.RegisterParams, pid: string, salt: string, resetToken: string, now: int,
    newPassword: string, newSalt: string, sessionToken: string)
    returns (afterForgot: Users.Slot, afterReset: Users.Slot, login: Auth.Reply, replay: Auth.Reply)
    ensures afterForgot == Users.Pending(resetToken, now)
    ensures afterReset == Users.Absent
    ensures login.LoggedIn? && login.login.email == params.email
    ensures replay == Auth.Unauthorized
  {
    var service := NewService();
    var _ := service.users.CreateWithPassword(params, pid, salt);
    var _ := service.Forgot(params.email, resetToken, now);
    var user := Users.FindByEmail(service.users.rows, params.email);
    afterForgot := Users.ResetSlot(user.value);
    var _ := service.Reset(user.value.resetToken.value, newPassword, newSalt);
    user := Users.FindByEmail(service.users.rows, params.email);
    afterReset := Users.ResetSlot(user.value);
    login := Auth.Login(service.users.rows, params.email, newPassword, sessionToken);
    replay := service.Reset(resetToken, newPassword, newSalt);
  }

  /** can_get_current_user: a session token issued for the user answers with its email, name and pid. */
  method CanGetCurrentUser(
    params: Users.RegisterParams, pid: string, salt: string,
    secret: string, issuedAt: int, ttl: nat, now: int, bearerText: string)
    returns (reply: Auth.Reply)
    requires now <= issuedAt + ttl
    ensures reply.Current?
    ensures reply.current.email == params.email && reply.current.name == params.name && reply.current.pid == pid
  {
    var service := NewService();
    var created := service.users.CreateWithPassword(params, pid, salt);
    var token := Session.Issue(created.value.pid, secret, issuedAt, ttl);
    Auth.CurrentAfterIssue(service.users.rows, created.value, secret, issuedAt, ttl, now, bearerText);
    reply := Auth.CurrentUser(service.users.rows, token, bearerText, secret, now);
  }

  /**
   * can_auth_with_magic_link: the mailed token logs the user in with its own
   * name and pid; the link is single-use, so presenting it again is refused.
   */
  method CanAuthWithMagicLink(
    params: Users.RegisterParams, pid: string, salt: string, magicToken: string, now: int, at: int, sessionToken: string)
    returns (reply: Auth.Reply, replay: Auth.Reply, mails: nat)
    requires |magicToken| == Users.MAGIC_LINK_LENGTH
    requires now <= at <= now + Users.MAGIC_LINK_EXPIRATION_MIN
    ensures reply.LoggedIn? && reply.login.name == params.name && reply.login.pid == pid
    ensures replay == Auth.Unauthorized
    ensures mails == 1
  {
    var service := NewService();
    var _ := service.users.CreateWithPassword(params, pid, salt);
    var _ := service.MagicLink(params.email, magicToken, now);
    var user := Users.FindByEmail(service.users.rows, params.email);
    reply := service.MagicLinkVerify(user.value.magicLinkToken.value, at, sessionToken);
    replay := service.MagicLinkVerify(magicToken, at, sessionToken);
    mails := service.deliveries;
  }

  /** can_reject_invalid_magic_link_token: a token nobody holds is unauthorized. */
  method CanRejectInvalidMagicLinkToken(
    params: Users.RegisterParams, pid: string, salt: string, magicToken: string, now: int, presented: string, sessionToken: string)
    returns (reply: Auth.Reply)
    requires |magicToken| == Users.MAGIC_LINK_LENGTH
    requires presented != magicToken
    ensures reply == Auth.Unauthorized
  {
    var service := NewService();
    var _ := service.users.CreateWithPassword(params, pid, salt);
    var _ := service.MagicLink(params.email, magicToken, now);
    reply := service.MagicLinkVerify(presented, now, sessionToken);
  }

  /**
   * can_resend_verification_email: registration sends the welcome mail and
   * a resend on the unverified account sends a second one with a new token.
   */
  method CanResendVerificationEmail(
    params: Users.RegisterParams, pid: string, salt: string, firstToken: string, secondToken: string,
    now: int, later: int, sessionToken: string)
    returns (reply: Auth.Reply, mails: nat, pending: Users.Slot)
    ensures reply == Auth.Done
    ensures mails == 2
    ensures pending == Users.Pending(secondToken, later)
  {
    var service := NewService();
    var _ := service.Register(params, pid, salt, firstToken, now, sessionToken);
    reply := service.ResendVerification(params.email, secondToken, later);
    mails := service.deliveries;
    var user := Users.FindByEmail(service.users.rows, params.email);
    pending := Users.VerificationSlot(user.value);
  }

  /**
   * cannot_resend_email_if_already_verified: once verified, a resend still
   * answers success but sends nothing, so only the welcome mail was sent.
   */
  method CannotResendEmailIfAlreadyVerified(
    params: Users.RegisterParams, pid: string, salt: string, firstToken: string, secondToken: string,
    now: int, later: int, sessionToken: string)
    returns (reply: Auth.Reply, mails: nat, pending: Users.Slot)
    ensures reply == Auth.Done
    ensures mails == 1
    ensures pending == Users.Pending(firstToken, now)
  {
    var service := NewService();
    var _ := service.Register(params, pid, salt, firstToken, now, sessionToken);
    var user := Users.FindByEmail(service.users.rows, params.email);
    var _ := service.Verify(user.value.emailVerificationToken.value, later);
    reply := service.ResendVerification(params.email, secondToken, later);
    mails := service.deliveries;
    user := Users.FindByEmail(service.users.rows, params.email);
    pending := Users.VerificationSlot(user.value);
  }
}
