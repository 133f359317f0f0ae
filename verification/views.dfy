/**
 * The JSON responses of the authentication endpoints: `LoginResponse` and
 * `CurrentResponse`, both projections of a user record and a session token.
 * The pid, a UUID in the record, is already its string form here.
 */
module Views {
  import Users

  datatype LoginResponse = LoginResponse(token: string, pid: string, name: string, isVerified: bool, email: string)

  datatype CurrentResponse = CurrentResponse(token: string, pid: string, name: string, email: string)

  /** `LoginResponse::new`: the token as given, the user's identity, and whether the email is verified. */
  function NewLoginResponse(user: Users.User, token: string): (r: LoginResponse)
    ensures r.token == token
    ensures r.pid == user.pid && r.name == user.name && r.email == user.email
    ensures r.isVerified <==> user.emailVerifiedAt.Some?
  {
    LoginResponse(token, user.pid, user.name, user.emailVerifiedAt.Some?, user.email)
  }

  /** `CurrentResponse::new`: the token as given and the user's identity. */
  function NewCurrentResponse(user: Users.User, token: string): (r: CurrentResponse)
    ensures r.token == token
    ensures r.pid == user.pid && r.name == user.name && r.email == user.email
  {
    CurrentResponse(token, user.pid, user.name, user.email)
  }

  /** For one user and token, both responses carry the same token, pid, name and email. */
  lemma ResponsesAgree(user: Users.User, token: string)
    ensures var l, c := NewLoginResponse(user, token), NewCurrentResponse(user, token);
      l.token == c.token && l.pid == c.pid && l.name == c.name && l.email == c.email
  {
  }

  /** Two versions of one account give login responses that differ at most in `isVerified`. */
  lemma LoginResponseDependsOnAccount(a: Users.User, b: Users.User, token: string)
    requires Users.SameAccount(a, b)
    requires a.emailVerifiedAt.Some? <==> b.emailVerifiedAt.Some?
    ensures NewLoginResponse(a, token) == NewLoginResponse(b, token)
  {
  }
}
