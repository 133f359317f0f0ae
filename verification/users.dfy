/**
 * The user credential record (`users::Model`) and the active-record
 * operations that the model tests drive: creation with a password, lookup
 * by email, pid and token, and the updates that issue, consume and clear the
 * email-verification, password-reset and magic-link tokens.
 *
 * The table is a sequence of rows in insertion order; a lookup returns the
 * first row that matches. Clock readings are integer minutes and generated
 * tokens, pids and salts are parameters.
 */
module Users {
  import opened Wrappers
  import Password

  /** Length of a magic-link token (its value is configuration and not modelled). */
  const MAGIC_LINK_LENGTH: nat
  /** Minutes a magic link stays valid after it is created. */
  const MAGIC_LINK_EXPIRATION_MIN: nat

  datatype RegisterParams = RegisterParams(email: string, password: string, name: string)

  datatype ModelError =
    | EntityAlreadyExists   // create_with_password with an email already registered
    | EntityNotFound        // a lookup that matched no row
    | UniqueViolation       // the storage layer refused a duplicate pid
    | MagicLinkExpired      // a magic-link token presented after its expiration

  /** One row of the users table. */
  datatype User = User(
    pid: string,
    email: string,
    name: string,
    password: Password.Digest,
    emailVerifiedAt: Option<int>,
    emailVerificationToken: Option<string>,
    emailVerificationSentAt: Option<int>,
    resetToken: Option<string>,
    resetSentAt: Option<int>,
    magicLinkToken: Option<string>,
    magicLinkExpiration: Option<int>)

  /**
   * The state of one token kind, read from its token field and its companion
   * timestamp: absent, pending, or torn when only one of the two is set.
   */
  datatype Slot = Absent | Pending(token: string, at: int) | Torn

  function SlotOf(token: Option<string>, at: Option<int>): (s: Slot)
    ensures s == Absent <==> token.None? && at.None?
    ensures s.Pending? <==> token.Some? && at.Some?
    ensures s.Pending? ==> s.token == token.value && s.at == at.value
  {
    if token.Some? && at.Some? then Pending(token.value, at.value)
    else if token.None? && at.None? then Absent
    else Torn
  }

  function VerificationSlot(u: User): Slot {
    SlotOf(u.emailVerificationToken, u.emailVerificationSentAt)
  }

  function ResetSlot(u: User): Slot {
    SlotOf(u.resetToken, u.resetSentAt)
  }

  /** For a magic link the timestamp is the expiration, not the issue time. */
  function MagicLinkSlot(u: User): Slot {
    SlotOf(u.magicLinkToken, u.magicLinkExpiration)
  }

  /**
   * The record invariant: each token and its timestamp are set and cleared
   * together, and a stored magic-link token has the configured length.
   */
  predicate WellFormed(u: User) {
    && VerificationSlot(u) != Torn
    && ResetSlot(u) != Torn
    && MagicLinkSlot(u) != Torn
    && (MagicLinkSlot(u).Pending? ==> |MagicLinkSlot(u).token| == MAGIC_LINK_LENGTH)
  }

  /** A record as creation leaves it: not verified and no token of any kind. */
  predicate IsFresh(u: User) {
    && u.emailVerifiedAt.None?
    && VerificationSlot(u) == Absent
    && ResetSlot(u) == Absent
    && MagicLinkSlot(u) == Absent
  }

  /** Two versions of one account: the same pid, email and name. */
  predicate SameAccount(a: User, b: User) {
    a.pid == b.pid && a.email == b.email && a.name == b.name
  }

  /** `verify_password`: the stored hash is the candidate's hash under the stored salt. */
  predicate VerifyPassword(u: User, password: string): (ok: bool)
    ensures ok <==> u.password == Password.Hash(password, u.password.salt)
  {
    Password.Verify(u.password, password)
  }

  // ---------------------------------------------------------------------------
  // Record transitions (what each active-record method writes)
  // ---------------------------------------------------------------------------

  /** The record `create_with_password` inserts. */
  function NewUser(params: RegisterParams, pid: string, salt: string): (u: User)
    ensures IsFresh(u) && WellFormed(u)
    ensures u.pid == pid && u.email == params.email && u.name == params.name
    ensures VerifyPassword(u, params.password)
  {
    Password.HashThenVerify(params.password, salt);
    User(pid, params.email, params.name, Password.Hash(params.password, salt),
         None, None, None, None, None, None, None)
  }

  /** `set_email_verification_sent`: token and sent-at are set together. */
  function WithVerificationSent(u: User, token: string, now: int): (r: User)
    ensures SameAccount(r, u) && r.password == u.password && r.emailVerifiedAt == u.emailVerifiedAt
    ensures VerificationSlot(r) == Pending(token, now)
    ensures ResetSlot(r) == ResetSlot(u) && MagicLinkSlot(r) == MagicLinkSlot(u)
    ensures WellFormed(u) ==> WellFormed(r)
  {
    u.(emailVerificationToken := Some(token), emailVerificationSentAt := Some(now))
  }

  /** `set_forgot_password_sent`: reset token and sent-at are set together. */
  function WithForgotPasswordSent(u: User, token: string, now: int): (r: User)
    ensures SameAccount(r, u) && r.password == u.password && r.emailVerifiedAt == u.emailVerifiedAt
    ensures ResetSlot(r) == Pending(token, now)
    ensures VerificationSlot(r) == VerificationSlot(u) && MagicLinkSlot(r) == MagicLinkSlot(u)
    ensures WellFormed(u) ==> WellFormed(r)
  {
    u.(resetToken := Some(token), resetSentAt := Some(now))
  }

  /** `verified`: the email is marked verified at `now`. */
  function WithVerified(u: User, now: int): (r: User)
    ensures SameAccount(r, u) && r.password == u.password
    ensures r.emailVerifiedAt == Some(now)
    ensures VerificationSlot(r) == VerificationSlot(u) && ResetSlot(r) == ResetSlot(u)
    ensures MagicLinkSlot(r) == MagicLinkSlot(u)
    ensures WellFormed(u) ==> WellFormed(r)
  {
    u.(emailVerifiedAt := Some(now))
  }

  /** `reset_password`: a fresh hash of the new password, and the reset token cleared. */
  function WithPasswordReset(u: User, password: string, salt: string): (r: User)
    ensures SameAccount(r, u) && r.emailVerifiedAt == u.emailVerifiedAt
    ensures VerifyPassword(r, password)
    ensures ResetSlot(r) == Absent
    ensures VerificationSlot(r) == VerificationSlot(u) && MagicLinkSlot(r) == MagicLinkSlot(u)
    ensures WellFormed(u) ==> WellFormed(r)
  {
    Password.HashThenVerify(password, salt);
    u.(password := Password.Hash(password, salt), resetToken := None, resetSentAt := None)
  }

  /** `create_magic_link`: a token and an expiration MAGIC_LINK_EXPIRATION_MIN minutes ahead. */
  function WithMagicLink(u: User, token: string, now: int): (r: User)
    requires |token| == MAGIC_LINK_LENGTH
    ensures SameAccount(r, u) && r.password == u.password && r.emailVerifiedAt == u.emailVerifiedAt
    ensures MagicLinkSlot(r).Pending? && MagicLinkSlot(r).token == token
    ensures now <= MagicLinkSlot(r).at <= now + MAGIC_LINK_EXPIRATION_MIN
    ensures VerificationSlot(r) == VerificationSlot(u) && ResetSlot(r) == ResetSlot(u)
    ensures WellFormed(u) ==> WellFormed(r)
  {
    u.(magicLinkToken := Some(token), magicLinkExpiration := Some(now + MAGIC_LINK_EXPIRATION_MIN))
  }

  /** `clear_magic_link`: token and expiration are cleared together. */
  function WithoutMagicLink(u: User): (r: User)
    ensures SameAccount(r, u) && r.password == u.password && r.emailVerifiedAt == u.emailVerifiedAt
    ensures MagicLinkSlot(r) == Absent
    ensures VerificationSlot(r) == VerificationSlot(u) && ResetSlot(r) == ResetSlot(u)
    ensures WellFormed(u) ==> WellFormed(r)
  {
    u.(magicLinkToken := None, magicLinkExpiration := None)
  }

  // ---------------------------------------------------------------------------
  // The table and its lookups
  // ---------------------------------------------------------------------------

  /** What a lookup filters on. */
  datatype Key =
    | ByEmail(email: string)
    | ByPid(pid: string)
    | ByVerificationToken(token: string)
    | ByResetToken(token: string)
    | ByMagicLinkToken(token: string)

  predicate Matches(u: User, k: Key) {
    match k
    case ByEmail(e) => u.email == e
    case ByPid(p) => u.pid == p
    case ByVerificationToken(t) => u.emailVerificationToken == Some(t)
    case ByResetToken(t) => u.resetToken == Some(t)
    case ByMagicLinkToken(t) => u.magicLinkToken == Some(t)
  }

  /** The index of the first row matching `k`, if any. */
  function FirstMatch(rows: seq<User>, k: Key): (r: Option<nat>)
    ensures r.Some? ==> r.value < |rows| && Matches(rows[r.value], k)
    ensures r.Some? ==> forall j :: 0 <= j < r.value ==> !Matches(rows[j], k)
    ensures r.None? ==> forall j :: 0 <= j < |rows| ==> !Matches(rows[j], k)
    decreases |rows|
  {
    if |rows| == 0 then None
    else if Matches(rows[0], k) then Some(0)
    else
      match FirstMatch(rows[1..], k)
      case None => None
      case Some(i) => Some(i + 1)
  }

  /** No two rows share an email, and no two rows share a pid. */
  predicate UniqueKeys(rows: seq<User>) {
    && (forall i, j :: 0 <= i < |rows| && 0 <= j < |rows| && rows[i].email == rows[j].email ==> i == j)
    && (forall i, j :: 0 <= i < |rows| && 0 <= j < |rows| && rows[i].pid == rows[j].pid ==> i == j)
  }

  /** The table invariant every store operation keeps. */
  predicate TableValid(rows: seq<User>) {
    UniqueKeys(rows) && forall i :: 0 <= i < |rows| ==> WellFormed(rows[i])
  }

  /** `find_by_email`. */
  function FindByEmail(rows: seq<User>, email: string): (r: Result<User, ModelError>)
    ensures r.Ok? ==> r.value in rows && r.value.email == email
    ensures r.Err? ==> r.error == EntityNotFound
    ensures r.Err? <==> forall u :: u in rows ==> u.email != email
  {
    match FirstMatch(rows, ByEmail(email))
    case Some(i) => Ok(rows[i])
    case None => Err(EntityNotFound)
  }

  /** `find_by_pid`. */
  function FindByPid(rows: seq<User>, pid: string): (r: Result<User, ModelError>)
    ensures r.Ok? ==> r.value in rows && r.value.pid == pid
    ensures r.Err? ==> r.error == EntityNotFound
    ensures r.Err? <==> forall u :: u in rows ==> u.pid != pid
  {
    match FirstMatch(rows, ByPid(pid))
    case Some(i) => Ok(rows[i])
    case None => Err(EntityNotFound)
  }

  /** `find_by_verification_token`. */
  function FindByVerificationToken(rows: seq<User>, token: string): (r: Result<User, ModelError>)
    ensures r.Ok? ==> r.value in rows && r.value.emailVerificationToken == Some(token)
    ensures r.Err? ==> r.error == EntityNotFound
    ensures r.Err? <==> forall u :: u in rows ==> u.emailVerificationToken != Some(token)
  {
    match FirstMatch(rows, ByVerificationToken(token))
    case Some(i) => Ok(rows[i])
    case None => Err(EntityNotFound)
  }

  /** `find_by_reset_token`. */
  function FindByResetToken(rows: seq<User>, token: string): (r: Result<User, ModelError>)
    ensures r.Ok? ==> r.value in rows && r.value.resetToken == Some(token)
    ensures r.Err? ==> r.error == EntityNotFound
    ensures r.Err? <==> forall u :: u in rows ==> u.resetToken != Some(token)
  {
    match FirstMatch(rows, ByResetToken(token))
    case Some(i) => Ok(rows[i])
    case None => Err(EntityNotFound)
  }

  /**
   * `find_by_magic_token`: the row holding the token, provided its expiration
   * has not passed at `now`.
   */
  function FindByMagicToken(rows: seq<User>, token: string, now: int): (r: Result<User, ModelError>)
    ensures r.Ok? ==> r.value in rows && r.value.magicLinkToken == Some(token)
    ensures r.Ok? ==> r.value.magicLinkExpiration.Some? && now <= r.value.magicLinkExpiration.value
    ensures (forall u :: u in rows ==> u.magicLinkToken != Some(token)) ==> r == Err(EntityNotFound)
    ensures match FirstMatch(rows, ByMagicLinkToken(token))
      case None => r == Err(EntityNotFound)
      case Some(i) =>
        && (r.Ok? <==> rows[i].magicLinkExpiration.Some? && now <= rows[i].magicLinkExpiration.value)
        && (r.Ok? ==> r == Ok(rows[i]))
  {
    match FirstMatch(rows, ByMagicLinkToken(token))
    case None => Err(EntityNotFound)
    case Some(i) =>
      var u := rows[i];
      if u.magicLinkExpiration.Some? && now <= u.magicLinkExpiration.value then Ok(u)
      else Err(MagicLinkExpired)
  }

  // ---------------------------------------------------------------------------
  // How the table evolves
  // ---------------------------------------------------------------------------

  /**
   * `after` is a later state of `before`: rows are only appended, each
   * existing row keeps its account identity, and a verified email stays
   * verified.
   */
  predicate Successor(before: seq<User>, after: seq<User>) {
    && |before| <= |after|
    && forall i :: 0 <= i < |before| ==>
         SameAccount(after[i], before[i]) &&
         (before[i].emailVerifiedAt.Some? ==> after[i].emailVerifiedAt.Some?)
  }

  /** Replacing a row by a well-formed version of the same account keeps the table valid. */
  lemma ReplacePreservesValid(rows: seq<User>, i: nat, u: User)
    requires TableValid(rows) && i < |rows|
    requires SameAccount(u, rows[i]) && WellFormed(u)
    requires rows[i].emailVerifiedAt.Some? ==> u.emailVerifiedAt.Some?
    ensures TableValid(rows[i := u]) && Successor(rows, rows[i := u])
  {
  }

  /** Appending a well-formed row with a new email and a new pid keeps the table valid. */
  lemma AppendPreservesValid(rows: seq<User>, u: User)
    requires TableValid(rows) && WellFormed(u)
    requires FindByEmail(rows, u.email).Err? && FindByPid(rows, u.pid).Err?
    ensures TableValid(rows + [u]) && Successor(rows, rows + [u])
  {
  }

  /** In a valid table, looking up a row's own email or pid yields that row. */
  lemma FindOwnRow(rows: seq<User>, u: User)
    requires TableValid(rows) && u in rows
    ensures FindByEmail(rows, u.email) == Ok(u)
    ensures FindByPid(rows, u.pid) == Ok(u)
  {
    var i :| 0 <= i < |rows| && rows[i] == u;
    var e := FirstMatch(rows, ByEmail(u.email));
    assert e.Some? by { assert Matches(rows[i], ByEmail(u.email)); }
    var p := FirstMatch(rows, ByPid(u.pid));
    assert p.Some? by { assert Matches(rows[i], ByPid(u.pid)); }
  }

  /** In a valid table, a row's own pid and email locate exactly that row. */
  lemma RowIndexOfOwnKeys(rows: seq<User>, i: nat)
    requires TableValid(rows) && i < |rows|
    ensures FirstMatch(rows, ByPid(rows[i].pid)) == Some(i)
    ensures FirstMatch(rows, ByEmail(rows[i].email)) == Some(i)
  {
    assert Matches(rows[i], ByPid(rows[i].pid));
    assert Matches(rows[i], ByEmail(rows[i].email));
  }

  /**
   * After a successful creation the new user is found by its email and its
   * pid, and every other lookup by email answers as before.
   */
  lemma {:induction false} FindAfterCreate(rows: seq<User>, params: RegisterParams, pid: string, salt: string, other: string)
    requires TableValid(rows)
    requires FindByEmail(rows, params.email).Err? && FindByPid(rows, pid).Err?
    requires other != params.email
    ensures var u := NewUser(params, pid, salt);
      && FindByEmail(rows + [u], params.email) == Ok(u)
      && FindByPid(rows + [u], pid) == Ok(u)
      && FindByEmail(rows + [u], other) == FindByEmail(rows, other)
  {
    var u := NewUser(params, pid, salt);
    AppendPreservesValid(rows, u);
    FindOwnRow(rows + [u], u);
    FirstMatchAppend(rows, u, ByEmail(other));
  }

  /** Appending a row that does not match leaves a lookup's answer unchanged. */
  lemma FirstMatchAppend(rows: seq<User>, u: User, k: Key)
    requires !Matches(u, k)
    ensures FirstMatch(rows + [u], k) == FirstMatch(rows, k)
  {
    assert forall j :: 0 <= j < |rows| ==> (rows + [u])[j] == rows[j];
  }

  /**
   * A wrong-length token never opens a magic link: every stored magic-link
   * token has MAGIC_LINK_LENGTH characters.
   */
  lemma WrongLengthMagicTokenRejected(rows: seq<User>, token: string, now: int)
    requires TableValid(rows)
    requires |token| != MAGIC_LINK_LENGTH
    ensures FindByMagicToken(rows, token, now) == Err(EntityNotFound)
  {
    forall u | u in rows
      ensures u.magicLinkToken != Some(token)
    {
      var i :| 0 <= i < |rows| && rows[i] == u;
      assert WellFormed(rows[i]);
    }
  }

  /** `reset_password` replaces the password: the new one verifies and the old one no longer does. */
  lemma {:induction false} ResetReplacesPassword(u: User, previous: string, password: string, salt: string)
    requires VerifyPassword(u, previous)
    ensures VerifyPassword(WithPasswordReset(u, password, salt), password)
    ensures previous != password ==> !VerifyPassword(WithPasswordReset(u, password, salt), previous)
  {
    Password.VerifyOnlyOriginal(password, previous, salt);
  }

  /** A magic link issued at `now` is honoured until its expiration and refused after it. */
  lemma MagicLinkLifetime(rows: seq<User>, i: nat, token: string, issuedAt: int, at: int)
    requires TableValid(rows) && i < |rows| && |token| == MAGIC_LINK_LENGTH
    requires forall j :: 0 <= j < |rows| && j != i ==> rows[j].magicLinkToken != Some(token)
    ensures var after := rows[i := WithMagicLink(rows[i], token, issuedAt)];
      && (at <= issuedAt + MAGIC_LINK_EXPIRATION_MIN ==> FindByMagicToken(after, token, at) == Ok(after[i]))
      && (at > issuedAt + MAGIC_LINK_EXPIRATION_MIN ==> FindByMagicToken(after, token, at).Err?)
  {
    var after := rows[i := WithMagicLink(rows[i], token, issuedAt)];
    var m := FirstMatch(after, ByMagicLinkToken(token));
    assert Matches(after[i], ByMagicLinkToken(token));
    assert m == Some(i);
  }

  // ---------------------------------------------------------------------------
  // The persisted table
  // ---------------------------------------------------------------------------

  /** The users table; every method persists its update in `rows`. */
  class Store {
    var rows: seq<User>

    ghost predicate Valid()
      reads this
    {
      TableValid(rows)
    }

    constructor()
      ensures Valid() && rows == []
    {
      rows := [];
    }

    /**
     * `create_with_password`: refuses an email that is already registered
     * (and a pid the table already holds); otherwise inserts a fresh record
     * holding a hash of the password.
     */
    method CreateWithPassword(params: RegisterParams, pid: string, salt: string) returns (r: Result<User, ModelError>)
      requires Valid()
      modifies this
      ensures Valid() && Successor(old(rows), rows)
      ensures FindByEmail(old(rows), params.email).Ok? ==>
                r == Err(EntityAlreadyExists) && rows == old(rows)
      ensures FindByEmail(old(rows), params.email).Err? && FindByPid(old(rows), pid).Ok? ==>
                r == Err(UniqueViolation) && rows == old(rows)
      ensures FindByEmail(old(rows), params.email).Err? && FindByPid(old(rows), pid).Err? ==>
                r == Ok(NewUser(params, pid, salt)) && rows == old(rows) + [r.value]
    {
      if FindByEmail(rows, params.email).Ok? {
        r := Err(EntityAlreadyExists);
      } else if FindByPid(rows, pid).Ok? {
        r := Err(UniqueViolation);
      } else {
        var u := NewUser(params, pid, salt);
        AppendPreservesValid(rows, u);
        rows := rows + [u];
        r := Ok(u);
      }
    }

    /** `set_email_verification_sent` on the user with this pid. */
    method SetEmailVerificationSent(pid: string, token: string, now: int) returns (r: Result<User, ModelError>)
      requires Valid()
      modifies this
      ensures Valid() && Successor(old(rows), rows)
      ensures match FirstMatch(old(rows), ByPid(pid))
        case None => r == Err(EntityNotFound) && rows == old(rows)
        case Some(i) => rows == old(rows)[i := WithVerificationSent(old(rows)[i], token, now)] && r == Ok(rows[i])
    {
      match FirstMatch(rows, ByPid(pid)) {
        case None =>
          r := Err(EntityNotFound);
        case Some(i) =>
          ReplacePreservesValid(rows, i, WithVerificationSent(rows[i], token, now));
          rows := rows[i := WithVerificationSent(rows[i], token, now)];
          r := Ok(rows[i]);
      }
    }

    /** `set_forgot_password_sent` on the user with this pid. */
    method SetForgotPasswordSent(pid: string, token: string, now: int) returns (r: Result<User, ModelError>)
      requires Valid()
      modifies this
      ensures Valid() && Successor(old(rows), rows)
      ensures match FirstMatch(old(rows), ByPid(pid))
        case None => r == Err(EntityNotFound) && rows == old(rows)
        case Some(i) => rows == old(rows)[i := WithForgotPasswordSent(old(rows)[i], token, now)] && r == Ok(rows[i])
    {
      match FirstMatch(rows, ByPid(pid)) {
        case None =>
          r := Err(EntityNotFound);
        case Some(i) =>
          ReplacePreservesValid(rows, i, WithForgotPasswordSent(rows[i], token, now));
          rows := rows[i := WithForgotPasswordSent(rows[i], token, now)];
          r := Ok(rows[i]);
      }
    }

    /** `verified` on the user with this pid. */
    method Verified(pid: string, now: int) returns (r: Result<User, ModelError>)
      requires Valid()
      modifies this
      ensures Valid() && Successor(old(rows), rows)
      ensures match FirstMatch(old(rows), ByPid(pid))
        case None => r == Err(EntityNotFound) && rows == old(rows)
        case Some(i) => rows == old(rows)[i := WithVerified(old(rows)[i], now)] && r == Ok(rows[i])
    {
      match FirstMatch(rows, ByPid(pid)) {
        case None =>
          r := Err(EntityNotFound);
        case Some(i) =>
          ReplacePreservesValid(rows, i, WithVerified(rows[i], now));
          rows := rows[i := WithVerified(rows[i], now)];
          r := Ok(rows[i]);
      }
    }

    /** `reset_password` on the user with this pid. */
    method ResetPassword(pid: string, password: string, salt: string) returns (r: Result<User, ModelError>)
      requires Valid()
      modifies this
      ensures Valid() && Successor(old(rows), rows)
      ensures match FirstMatch(old(rows), ByPid(pid))
        case None => r == Err(EntityNotFound) && rows == old(rows)
        case Some(i) => rows == old(rows)[i := WithPasswordReset(old(rows)[i], password, salt)] && r == Ok(rows[i])
    {
      match FirstMatch(rows, ByPid(pid)) {
        case None =>
          r := Err(EntityNotFound);
        case Some(i) =>
          ReplacePreservesValid(rows, i, WithPasswordReset(rows[i], password, salt));
          rows := rows[i := WithPasswordReset(rows[i], password, salt)];
          r := Ok(rows[i]);
      }
    }

    /** `create_magic_link` on the user with this pid; `token` is the generator's output. */
    method CreateMagicLink(pid: string, token: string, now: int) returns (r: Result<User, ModelError>)
      requires Valid()
      requires |token| == MAGIC_LINK_LENGTH
      modifies this
      ensures Valid() && Successor(old(rows), rows)
      ensures match FirstMatch(old(rows), ByPid(pid))
        case None => r == Err(EntityNotFound) && rows == old(rows)
        case Some(i) => rows == old(rows)[i := WithMagicLink(old(rows)[i], token, now)] && r == Ok(rows[i])
    {
      match FirstMatch(rows, ByPid(pid)) {
        case None =>
          r := Err(EntityNotFound);
        case Some(i) =>
          ReplacePreservesValid(rows, i, WithMagicLink(rows[i], token, now));
          rows := rows[i := WithMagicLink(rows[i], token, now)];
          r := Ok(rows[i]);
      }
    }

    /** `clear_magic_link` on the user with this pid. */
    method ClearMagicLink(pid: string) returns (r: Result<User, ModelError>)
      requires Valid()
      modifies this
      ensures Valid() && Successor(old(rows), rows)
      ensures match FirstMatch(old(rows), ByPid(pid))
        case None => r == Err(EntityNotFound) && rows == old(rows)
        case Some(i) => rows == old(rows)[i := WithoutMagicLink(old(rows)[i])] && r == Ok(rows[i])
    {
      match FirstMatch(rows, ByPid(pid)) {
        case None =>
          r := Err(EntityNotFound);
        case Some(i) =>
          ReplacePreservesValid(rows, i, WithoutMagicLink(rows[i]));
          rows := rows[i := WithoutMagicLink(rows[i])];
          r := Ok(rows[i]);
      }
    }
  }
}
