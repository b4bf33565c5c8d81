/** The auth service's credential state machine over a user table: password
    hashes, the hash of the latest refresh token, and the reset token with its
    expiry. Hashing is an opaque digest and the signed tokens are inputs. */
module Auth {
  import opened Wrappers
  import Seqs

  /** An argon2 hash, abstracted to what it was computed from; salting and the
      cost parameters are not modelled. */
  datatype Digest = Digest(preimage: string)

  /** `argon2.hash`. */
  function Hash(secret: string): Digest
  {
    Digest(secret)
  }

  /** `argon2.verify(digest, candidate)`. */
  predicate Verify(d: Digest, candidate: string)
  {
    d.preimage == candidate
  }

  /** The one property of the hash the service relies on. */
  lemma VerifyHash(secret: string, candidate: string)
    ensures Verify(Hash(secret), candidate) <==> candidate == secret
  {
  }

  /** One hour, in milliseconds. */
  const RESET_TOKEN_LIFETIME_MS: int := 3600000

  const FORGOT_PASSWORD_MESSAGE: string := "If user exists, email sent"
  const RESET_PASSWORD_MESSAGE: string := "Password reset successful"
  const VERIFY_EMAIL_MESSAGE: string := "Email verified (stub)"

  datatype TokenPair = TokenPair(accessToken: string, refreshToken: string)

  datatype User = User(
    id: nat,
    email: string,
    password: Digest,
    role: string,
    hashedRefreshToken: Option<Digest>,
    passwordResetToken: Option<string>,
    passwordResetExpires: Option<int>,
    isEmailVerified: bool)

  datatype AuthError =
    | EmailTaken          // ConflictException('User with this email already exists')
    | InvalidCredentials  // UnauthorizedException('Invalid credentials')
    | AccessDenied        // ForbiddenException('Access Denied')
    | InvalidResetToken   // BadRequestException('Invalid or expired token')
    | UserNotFound        // the store's update of an id it does not hold

  function Email(u: User): string
  {
    u.email
  }

  /** Ids are positions in the table and emails are unique. */
  predicate UsersValid(users: seq<User>)
  {
    (forall i :: 0 <= i < |users| ==> users[i].id == i) && Seqs.UniqueKeys(users, Email)
  }

  /** `usersService.user({ email })`. */
  function FindByEmail(users: seq<User>, email: string): Option<nat>
  {
    Seqs.IndexOfKey(users, Email, email)
  }

  /** A freshly created user: hashed password, no session, no reset request,
      email not verified. */
  function NewUser(id: nat, email: string, password: string, role: string): User
  {
    User(id, email, Hash(password), role, None, None, None, false)
  }

  /** `updateRefreshToken`: the hash of the newly issued refresh token replaces any earlier one. */
  function WithRefreshToken(u: User, refreshToken: string): User
  {
    u.(hashedRefreshToken := Some(Hash(refreshToken)))
  }

  /** The check of `refreshTokens` on a found user. */
  predicate RefreshAllowed(u: User, refreshToken: string)
  {
    u.hashedRefreshToken.Some? && Verify(u.hashedRefreshToken.value, refreshToken)
  }

  /** What `forgotPassword` stores for an existing user. */
  function WithResetRequest(u: User, resetToken: string, now: int): User
  {
    u.(passwordResetToken := Some(resetToken), passwordResetExpires := Some(now + RESET_TOKEN_LIFETIME_MS))
  }

  /** The check of `resetPassword` on a found user: the stored token equals the
      given one (a missing token never does) and the expiry is set and not
      before `now`. */
  predicate ResetAllowed(u: User, token: string, now: int)
  {
    u.passwordResetToken == Some(token) && u.passwordResetExpires.Some? && !(u.passwordResetExpires.value < now)
  }

  /** What a successful `resetPassword` stores. */
  function WithNewPassword(u: User, newPassword: string): User
  {
    u.(password := Hash(newPassword), passwordResetToken := None, passwordResetExpires := None)
  }

  /** Only the most recently issued refresh token is accepted: issuing a new
      pair revokes the previous refresh token. */
  lemma OnlyLatestRefreshToken(u: User, issued: string, presented: string)
    ensures RefreshAllowed(WithRefreshToken(u, issued), presented) <==> presented == issued
  {
    VerifyHash(issued, presented);
  }

  /** After logout no refresh token is accepted. */
  lemma LogoutRevokesRefresh(u: User, presented: string)
    ensures !RefreshAllowed(u.(hashedRefreshToken := None), presented)
  {
  }

  /** A reset request is honoured for exactly its own token, up to and
      including one hour after it was made. */
  lemma ResetWindow(u: User, resetToken: string, requestedAt: int, presented: string, now: int)
    ensures ResetAllowed(WithResetRequest(u, resetToken, requestedAt), presented, now)
        <==> presented == resetToken && now <= requestedAt + RESET_TOKEN_LIFETIME_MS
  {
  }

  /** A reset token works once: after a successful reset none is accepted, and
      only the new password logs in. */
  lemma ResetIsSingleUse(u: User, newPassword: string, presented: string, candidate: string, now: int)
    ensures !ResetAllowed(WithNewPassword(u, newPassword), presented, now)
    ensures Verify(WithNewPassword(u, newPassword).password, candidate) <==> candidate == newPassword
  {
  }

  /** Adding a user with an unused email at the next position keeps the table valid. */
  lemma AppendKeepsValid(users: seq<User>, u: User)
    requires UsersValid(users) && FindByEmail(users, u.email).None? && u.id == |users|
    ensures UsersValid(users + [u])
    ensures FindByEmail(users + [u], u.email) == Some(|users|)
  {
    var after := users + [u];
    forall i, j | 0 <= i < j < |after| ensures Email(after[i]) != Email(after[j]) {
      if j == |users| {
        assert Email(users[i]) != u.email;
      } else {
        assert Email(users[i]) != Email(users[j]);
      }
    }
    assert forall i :: 0 <= i < |users| ==> Email(after[i]) != u.email;
    assert Email(after[|users|]) == u.email;
  }

  /** Rewriting a user's record without touching its id or email keeps the
      table valid and the lookups by email unchanged. */
  lemma UpdateKeepsValid(users: seq<User>, k: nat, u: User, email: string)
    requires UsersValid(users) && k < |users| && u.id == users[k].id && u.email == users[k].email
    ensures UsersValid(users[k := u])
    ensures FindByEmail(users[k := u], email) == FindByEmail(users, email)
  {
    var after := users[k := u];
    assert forall i :: 0 <= i < |users| ==> Email(after[i]) == Email(users[i]);
    assert Seqs.UniqueKeys(after, Email);
    UpdateKeepsLookup(users, k, u, email);
  }

  lemma {:induction false} UpdateKeepsLookup(users: seq<User>, k: nat, u: User, email: string)
    requires k < |users| && u.email == users[k].email
    ensures FindByEmail(users[k := u], email) == FindByEmail(users, email)
  {
    if k > 0 {
      assert users[k := u][1..] == users[1..][k - 1 := u];
      UpdateKeepsLookup(users[1..], k - 1, u, email);
    }
  }

  class AuthService {
    var users: seq<User>

    ghost predicate Valid()
      reads this
    {
      UsersValid(users)
    }

    constructor ()
      ensures Valid() && users == []
    {
      users := [];
    }

    /** `register`: an email already in the table is a conflict and creates
        nobody; otherwise the user is created with the hashed password and the
        issued refresh token's hash, and the issued pair is returned. */
    method Register(email: string, password: string, role: string, issued: TokenPair)
      returns (r: Result<TokenPair, AuthError>)
      requires Valid()
      modifies this
      ensures Valid()
      ensures FindByEmail(old(users), email).Some? ==> r == Err(EmailTaken) && users == old(users)
      ensures FindByEmail(old(users), email).None? ==>
        && r == Ok(issued)
        && users == old(users) + [WithRefreshToken(NewUser(|old(users)|, email, password, role), issued.refreshToken)]
        && FindByEmail(users, email) == Some(|old(users)|)
    {
      if FindByEmail(users, email).Some? {
        return Err(EmailTaken);
      }
      var user := NewUser(|users|, email, password, role);
      AppendKeepsValid(users, user);
      users := users + [user];
      var created := users;
      UpdateRefreshToken(user.id, issued.refreshToken);
      UpdateKeepsLookup(created, user.id, WithRefreshToken(user, issued.refreshToken), email);
      r := Ok(issued);
    }

    /** `login`: an unknown email and a wrong password fail alike; otherwise
        the issued refresh token's hash is stored and the pair returned. */
    method Login(email: string, password: string, issued: TokenPair) returns (r: Result<TokenPair, AuthError>)
      requires Valid()
      modifies this
      ensures Valid()
      ensures r.Err? ==> r.error == InvalidCredentials && users == old(users)
      ensures r.Ok? <==>
        FindByEmail(old(users), email).Some? && Verify(old(users)[FindByEmail(old(users), email).value].password, password)
      ensures r.Ok? ==>
        var k := FindByEmail(old(users), email).value;
        r.value == issued && users == old(users)[k := WithRefreshToken(old(users)[k], issued.refreshToken)]
    {
      var found := FindByEmail(users, email);
      if found.None? {
        return Err(InvalidCredentials);
      }
      if !Verify(users[found.value].password, password) {
        return Err(InvalidCredentials);
      }
      UpdateRefreshToken(found.value, issued.refreshToken);
      r := Ok(issued);
    }

    /** `logout`: the stored refresh hash is cleared. */
    method Logout(userId: nat) returns (r: Outcome<AuthError>)
      requires Valid()
      modifies this
      ensures Valid()
      ensures userId >= |old(users)| ==> r == Fail(UserNotFound) && users == old(users)
      ensures userId < |old(users)| ==>
        r == Pass && users == old(users)[userId := old(users)[userId].(hashedRefreshToken := None)]
    {
      if userId >= |users| {
        return Fail(UserNotFound);
      }
      UpdateKeepsValid(users, userId, users[userId].(hashedRefreshToken := None), "");
      users := users[userId := users[userId].(hashedRefreshToken := None)];
      r := Pass;
    }

    /** `refreshTokens`: an unknown user, a logged-out user and a token that
        does not match the stored hash are all denied; otherwise the new
        pair's refresh hash replaces the old one. */
    method RefreshTokens(userId: nat, refreshToken: string, issued: TokenPair)
      returns (r: Result<TokenPair, AuthError>)
      requires Valid()
      modifies this
      ensures Valid()
      ensures r.Err? ==> r.error == AccessDenied && users == old(users)
      ensures r.Ok? <==> userId < |old(users)| && RefreshAllowed(old(users)[userId], refreshToken)
      ensures r.Ok? ==>
        r.value == issued && users == old(users)[userId := WithRefreshToken(old(users)[userId], issued.refreshToken)]
    {
      if userId >= |users| || users[userId].hashedRefreshToken.None? {
        return Err(AccessDenied);
      }
      if !Verify(users[userId].hashedRefreshToken.value, refreshToken) {
        return Err(AccessDenied);
      }
      UpdateRefreshToken(userId, issued.refreshToken);
      r := Ok(issued);
    }

    /** `updateRefreshToken`. */
    method UpdateRefreshToken(userId: nat, refreshToken: string)
      requires Valid() && userId < |users|
      modifies this
      ensures Valid()
      ensures users == old(users)[userId := WithRefreshToken(old(users)[userId], refreshToken)]
    {
      UpdateKeepsValid(users, userId, WithRefreshToken(users[userId], refreshToken), "");
      users := users[userId := WithRefreshToken(users[userId], refreshToken)];
    }

    /** `forgotPassword`: the same message whether or not the email is known;
        a known user gets the reset token and an expiry one hour after `now`. */
    method ForgotPassword(email: string, resetToken: string, now: int) returns (message: string)
      requires Valid()
      modifies this
      ensures Valid()
      ensures message == FORGOT_PASSWORD_MESSAGE
      ensures FindByEmail(old(users), email).None? ==> users == old(users)
      ensures FindByEmail(old(users), email).Some? ==>
        var k := FindByEmail(old(users), email).value;
        users == old(users)[k := WithResetRequest(old(users)[k], resetToken, now)]
    {
      var found := FindByEmail(users, email);
      if found.Some? {
        var k := found.value;
        UpdateKeepsValid(users, k, WithResetRequest(users[k], resetToken, now), "");
        users := users[k := WithResetRequest(users[k], resetToken, now)];
      }
      message := FORGOT_PASSWORD_MESSAGE;
    }

    /** `resetPassword`: an unknown email, a token other than the stored one,
        a missing expiry and an expiry before `now` are all rejected alike;
        otherwise the new password's hash is stored and the token and expiry
        cleared. The stored refresh hash is left as it was. */
    method ResetPassword(email: string, token: string, newPassword: string, now: int)
      returns (r: Result<string, AuthError>)
      requires Valid()
      modifies this
      ensures Valid()
      ensures r.Err? ==> r.error == InvalidResetToken && users == old(users)
      ensures r.Ok? <==>
        FindByEmail(old(users), email).Some? && ResetAllowed(old(users)[FindByEmail(old(users), email).value], token, now)
      ensures r.Ok? ==>
        var k := FindByEmail(old(users), email).value;
        r.value == RESET_PASSWORD_MESSAGE && users == old(users)[k := WithNewPassword(old(users)[k], newPassword)]
    {
      var found := FindByEmail(users, email);
      if found.None? {
        return Err(InvalidResetToken);
      }
      var k := found.value;
      var user := users[k];
      if user.passwordResetToken != Some(token) || user.passwordResetExpires.None? || user.passwordResetExpires.value < now {
        return Err(InvalidResetToken);
      }
      UpdateKeepsValid(users, k, WithNewPassword(user, newPassword), "");
      users := users[k := WithNewPassword(user, newPassword)];
      r := Ok(RESET_PASSWORD_MESSAGE);
    }

    /** `verifyEmail`: a known user's flag is set; the message is the same either way. */
    method VerifyEmail(email: string) returns (message: string)
      requires Valid()
      modifies this
      ensures Valid()
      ensures message == VERIFY_EMAIL_MESSAGE
      ensures FindByEmail(old(users), email).None? ==> users == old(users)
      ensures FindByEmail(old(users), email).Some? ==>
        var k := FindByEmail(old(users), email).value;
        users == old(users)[k := old(users)[k].(isEmailVerified := true)]
    {
      var found := FindByEmail(users, email);
      if found.Some? {
        var k := found.value;
        UpdateKeepsValid(users, k, users[k].(isEmailVerified := true), "");
        users := users[k := users[k].(isEmailVerified := true)];
      }
      message := VERIFY_EMAIL_MESSAGE;
    }
  }
}
