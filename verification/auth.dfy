/**
 * The authentication endpoints as the request tests drive them: register,
 * verify, login, forgot and reset, magic-link issue and consumption,
 * resend-verification and current. Each endpoint reads and updates the users
 * table and counts the mails it hands to the mailer. HTTP statuses and JSON
 * bodies are reduced to a typed reply.
 *
 * Generated values (pids, salts, tokens), the clock (integer minutes) and the
 * compact text of the session token the JWT library produces are parameters.
 */
module Auth {
  import opened Wrappers
  import Users
  import Views
  import Session

  /** What an endpoint answers. */
  datatype Reply =
    | Done                                      // 200 with an empty body
    | LoggedIn(login: Views.LoginResponse)      // 200 with a LoginResponse
    | Current(current: Views.CurrentResponse)   // 200 with a CurrentResponse
    | Unauthorized                              // 401
    | NotFound                                  // the authenticated pid has no row

  /**
   * Between `before` and `after` rows were only appended, every account kept
   * its identity, and a verified email kept its verification time.
   */
  predicate Settled(before: seq<Users.User>, after: seq<Users.User>) {
    && Users.Successor(before, after)
    && forall i :: 0 <= i < |before| && before[i].emailVerifiedAt.Some? ==>
         after[i].emailVerifiedAt == before[i].emailVerifiedAt
  }

  /** `POST /api/auth/login`: the user's LoginResponse when the email exists and the password matches. */
  function Login(rows: seq<Users.User>, email: string, password: string, sessionToken: string): (reply: Reply)
    ensures reply.LoggedIn? || reply == Unauthorized
    ensures reply.LoggedIn? <==>
      Users.FindByEmail(rows, email).Ok? && Users.VerifyPassword(Users.FindByEmail(rows, email).value, password)
    ensures reply.LoggedIn? ==>
      reply.login == Views.NewLoginResponse(Users.FindByEmail(rows, email).value, sessionToken)
  {
    match Users.FindByEmail(rows, email)
    case Err(_) => Unauthorized
    case Ok(u) =>
      if Users.VerifyPassword(u, password) then LoggedIn(Views.NewLoginResponse(u, sessionToken))
      else Unauthorized
  }

  /** `GET /api/auth/current`: the CurrentResponse of the user a valid bearer token names. */
  function CurrentUser(rows: seq<Users.User>, bearer: Session.Jwt, bearerText: string, secret: string, now: int): (reply: Reply)
    ensures Session.Validate(bearer, secret, now).None? ==> reply == Unauthorized
    ensures reply.Current? ==>
      && Session.Validate(bearer, secret, now) == Some(bearer.claims.pid)
      && Users.FindByPid(rows, bearer.claims.pid).Ok?
      && reply.current == Views.NewCurrentResponse(Users.FindByPid(rows, bearer.claims.pid).value, bearerText)
    ensures reply.Current? || reply == Unauthorized || reply == NotFound
    ensures Session.Validate(bearer, secret, now).Some? ==>
      && (Users.FindByPid(rows, bearer.claims.pid).Ok? <==> reply.Current?)
      && (Users.FindByPid(rows, bearer.claims.pid).Err? <==> reply == NotFound)
  {
    match Session.Validate(bearer, secret, now)
    case None => Unauthorized
    case Some(pid) =>
      match Users.FindByPid(rows, pid)
      case Err(_) => NotFound
      case Ok(u) => Current(Views.NewCurrentResponse(u, bearerText))
  }

  /** Login with an email no row holds is unauthorized, whatever the password. */
  lemma LoginUnknownEmail(rows: seq<Users.User>, email: string, password: string, sessionToken: string)
    requires forall u :: u in rows ==> u.email != email
    ensures Login(rows, email, password, sessionToken) == Unauthorized
  {
  }

  /**
   * Login does not wait for verification: a registered user with the right
   * password logs in, and the response reports whether the email is verified.
   */
  lemma {:induction false} LoginWithPassword(rows: seq<Users.User>, u: Users.User, password: string, sessionToken: string)
    requires Users.TableValid(rows) && u in rows
    requires Users.VerifyPassword(u, password)
    ensures Login(rows, u.email, password, sessionToken) == LoggedIn(Views.NewLoginResponse(u, sessionToken))
    ensures Login(rows, u.email, password, sessionToken).login.isVerified <==> u.emailVerifiedAt.Some?
  {
    Users.FindOwnRow(rows, u);
  }

  /**
   * A token issued for a registered user opens `current` until it expires,
   * and the reply carries that user's email, name and pid.
   */
  lemma {:induction false} CurrentAfterIssue(rows: seq<Users.User>, u: Users.User, secret: string, issuedAt: int, ttl: nat, now: int, bearerText: string)
    requires Users.TableValid(rows) && u in rows
    requires now <= issuedAt + ttl
    ensures var reply := CurrentUser(rows, Session.Issue(u.pid, secret, issuedAt, ttl), bearerText, secret, now);
      && reply == Current(Views.NewCurrentResponse(u, bearerText))
      && reply.current.email == u.email && reply.current.name == u.name && reply.current.pid == u.pid
  {
    Session.IssueThenValidate(u.pid, secret, issuedAt, ttl, now);
    Users.FindOwnRow(rows, u);
  }

  /** The authentication controller: the users table and the mailer's delivery count. */
  class Service {
    const users: Users.Store
    var deliveries: nat

    ghost predicate Valid()
      reads this, users
    {
      users.Valid()
    }

    constructor(users: Users.Store)
      requires users.Valid()
      ensures Valid() && this.users == users && deliveries == 0
    {
      this.users := users;
      deliveries := 0;
    }

    /**
     * `POST /api/auth/register`: creates the user, issues an email
     * verification token, sends the welcome mail and answers with a
     * LoginResponse. A refused creation changes nothing and sends nothing.
     */
    method Register(params: Users.RegisterParams, pid: string, salt: string, verificationToken: string, now: int, sessionToken: string)
      returns (reply: Reply)
      requires Valid()
      modifies this, users
      ensures Valid() && Settled(old(users.rows), users.rows)
      ensures Users.FindByEmail(old(users.rows), params.email).Ok? || Users.FindByPid(old(users.rows), pid).Ok? ==>
        reply == Done && users.rows == old(users.rows) && deliveries == old(deliveries)
      ensures Users.FindByEmail(old(users.rows), params.email).Err? && Users.FindByPid(old(users.rows), pid).Err? ==>
        var u := Users.WithVerificationSent(Users.NewUser(params, pid, salt), verificationToken, now);
        && users.rows == old(users.rows) + [u]
        && deliveries == old(deliveries) + 1
        && reply == LoggedIn(Views.NewLoginResponse(u, sessionToken))
    {
      var created := users.CreateWithPassword(params, pid, salt);
      if created.Err? {
        reply := Done;
        return;
      }
      ghost var before := users.rows;
      Users.RowIndexOfOwnKeys(before, |before| - 1);
      var updated := users.SetEmailVerificationSent(pid, verificationToken, now);
      assert users.rows == old(users.rows) + [updated.value];
      deliveries := deliveries + 1;
      reply := LoggedIn(Views.NewLoginResponse(updated.value, sessionToken));
    }

    /**
     * `GET /api/auth/verify/{token}`: an unknown token is unauthorized; the
     * holder of the token is marked verified unless it already is.
     */
    method Verify(token: string, now: int) returns (reply: Reply)
      requires Valid()
      modifies users
      ensures Valid() && Settled(old(users.rows), users.rows)
      ensures match Users.FirstMatch(old(users.rows), Users.ByVerificationToken(token))
        case None => reply == Unauthorized && users.rows == old(users.rows)
        case Some(i) =>
          && reply == Done
          && (old(users.rows)[i].emailVerifiedAt.Some? ==> users.rows == old(users.rows))
          && (old(users.rows)[i].emailVerifiedAt.None? ==>
                users.rows == old(users.rows)[i := Users.WithVerified(old(users.rows)[i], now)])
    {
      match Users.FindByVerificationToken(users.rows, token) {
        case Err(_) =>
          reply := Unauthorized;
        case Ok(u) =>
          var i := Users.FirstMatch(users.rows, Users.ByVerificationToken(token)).value;
          if u.emailVerifiedAt.None? {
            Users.RowIndexOfOwnKeys(users.rows, i);
            var _ := users.Verified(u.pid, now);
          }
          reply := Done;
      }
    }

    /**
     * `POST /api/auth/forgot`: for a registered email, issues a reset token
     * and sends one mail; an unknown email gets the same answer and no mail.
     */
    method Forgot(email: string, resetToken: string, now: int) returns (reply: Reply)
      requires Valid()
      modifies this, users
      ensures Valid() && Settled(old(users.rows), users.rows)
      ensures reply == Done
      ensures match Users.FirstMatch(old(users.rows), Users.ByEmail(email))
        case None => users.rows == old(users.rows) && deliveries == old(deliveries)
        case Some(i) =>
          && users.rows == old(users.rows)[i := Users.WithForgotPasswordSent(old(users.rows)[i], resetToken, now)]
          && deliveries == old(deliveries) + 1
    {
      match Users.FindByEmail(users.rows, email) {
        case Err(_) =>
        case Ok(u) =>
          Users.RowIndexOfOwnKeys(users.rows, Users.FirstMatch(users.rows, Users.ByEmail(email)).value);
          var _ := users.SetForgotPasswordSent(u.pid, resetToken, now);
          deliveries := deliveries + 1;
      }
      reply := Done;
    }

    /**
     * `POST /api/auth/reset`: the holder of the reset token gets the new
     * password and the token is cleared in the same update; an unknown token
     * is unauthorized and changes nothing.
     */
    method Reset(token: string, password: string, salt: string) returns (reply: Reply)
      requires Valid()
      modifies users
      ensures Valid() && Settled(old(users.rows), users.rows)
      ensures match Users.FirstMatch(old(users.rows), Users.ByResetToken(token))
        case None => reply == Unauthorized && users.rows == old(users.rows)
        case Some(i) =>
          && reply == Done
          && users.rows == old(users.rows)[i := Users.WithPasswordReset(old(users.rows)[i], password, salt)]
    {
      match Users.FindByResetToken(users.rows, token) {
        case Err(_) =>
          reply := Unauthorized;
        case Ok(u) =>
          Users.RowIndexOfOwnKeys(users.rows, Users.FirstMatch(users.rows, Users.ByResetToken(token)).value);
          var _ := users.ResetPassword(u.pid, password, salt);
          reply := Done;
      }
    }

    /**
     * `POST /api/auth/magic-link`: for a registered email, creates a magic
     * link and mails it; an unknown email gets the same answer and no mail.
     */
    method MagicLink(email: string, magicToken: string, now: int) returns (reply: Reply)
      requires Valid()
      requires |magicToken| == Users.MAGIC_LINK_LENGTH
      modifies this, users
      ensures Valid() && Settled(old(users.rows), users.rows)
      ensures reply == Done
      ensures match Users.FirstMatch(old(users.rows), Users.ByEmail(email))
        case None => users.rows == old(users.rows) && deliveries == old(deliveries)
        case Some(i) =>
          && users.rows == old(users.rows)[i := Users.WithMagicLink(old(users.rows)[i], magicToken, now)]
          && deliveries == old(deliveries) + 1
    {
      match Users.FindByEmail(users.rows, email) {
        case Err(_) =>
        case Ok(u) =>
          Users.RowIndexOfOwnKeys(users.rows, Users.FirstMatch(users.rows, Users.ByEmail(email)).value);
          var _ := users.CreateMagicLink(u.pid, magicToken, now);
          deliveries := deliveries + 1;
      }
      reply := Done;
    }

    /**
     * `GET /api/auth/magic-link/{token}`: an unknown or expired token is
     * unauthorized; otherwise the link is cleared and the holder is logged in.
     */
    method MagicLinkVerify(token: string, now: int, sessionToken: string) returns (reply: Reply)
      requires Valid()
      modifies users
      ensures Valid() && Settled(old(users.rows), users.rows)
      ensures Users.FindByMagicToken(old(users.rows), token, now).Err? ==>
        reply == Unauthorized && users.rows == old(users.rows)
      ensures Users.FindByMagicToken(old(users.rows), token, now).Ok? ==>
        var i := Users.FirstMatch(old(users.rows), Users.ByMagicLinkToken(token)).value;
        && users.rows == old(users.rows)[i := Users.WithoutMagicLink(old(users.rows)[i])]
        && reply == LoggedIn(Views.NewLoginResponse(users.rows[i], sessionToken))
    {
      match Users.FindByMagicToken(users.rows, token, now) {
        case Err(_) =>
          reply := Unauthorized;
        case Ok(u) =>
          Users.RowIndexOfOwnKeys(users.rows, Users.FirstMatch(users.rows, Users.ByMagicLinkToken(token)).value);
          var cleared := users.ClearMagicLink(u.pid);
          reply := LoggedIn(Views.NewLoginResponse(cleared.value, sessionToken));
      }
    }

    /**
     * `POST /api/auth/resend-verification-mail`: an unverified user gets a
     * new verification token and one mail; a verified or unknown email gets
     * the same answer and no mail.
     */
    method ResendVerification(email: string, verificationToken: string, now: int) returns (reply: Reply)
      requires Valid()
      modifies this, users
      ensures Valid() && Settled(old(users.rows), users.rows)
      ensures reply == Done
      ensures match Users.FirstMatch(old(users.rows), Users.ByEmail(email))
        case None => users.rows == old(users.rows) && deliveries == old(deliveries)
        case Some(i) =>
          if old(users.rows)[i].emailVerifiedAt.Some? then
            users.rows == old(users.rows) && deliveries == old(deliveries)
          else
            && users.rows == old(users.rows)[i := Users.WithVerificationSent(old(users.rows)[i], verificationToken, now)]
            && deliveries == old(deliveries) + 1
    {
      match Users.FindByEmail(users.rows, email) {
        case Err(_) =>
        case Ok(u) =>
          if u.emailVerifiedAt.None? {
            Users.RowIndexOfOwnKeys(users.rows, Users.FirstMatch(users.rows, Users.ByEmail(email)).value);
            var _ := users.SetEmailVerificationSent(u.pid, verificationToken, now);
            deliveries := deliveries + 1;
          }
      }
      reply := Done;
    }
  }
}
