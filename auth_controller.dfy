/** The decisions of `AuthController` (`src/controllers/auth.controller.ts`) around its
    identity-provider calls. Each provider answer is an input; its `user` and `session` are
    the provider's raw objects. */
module AuthController {
  import opened Wrappers
  import opened Strings
  import opened Json
  import opened Errors
  import opened Http

  datatype ProviderError = ProviderError(message: string)

  /** `{ data: { user, session }, error }` as a provider call answers. */
  datatype Answer = Answer(user: Option<Record>, session: Option<Record>, error: Option<ProviderError>)

  /** `getUserById`: `{ data: user, error }`, where `user` wraps the provider's user object. */
  datatype UserLookup = UserFound(user: Record) | LookupFailed(error: ProviderError) | NoUser

  /** A provider call a handler makes. */
  datatype Call = RevokeSession(token: string) | GetUserById(id: string)

  /** `{ id, email, fullName }` of a provider user. */
  function UserSummary(user: Record): Record {
    Put(Put(Put(map[], "id", Get(user, "id")), "email", Get(user, "email")),
        "fullName", GetPath(user, "user_metadata", "full_name"))
  }

  /** `{ accessToken, refreshToken, expiresIn, expiresAt }` of a provider session. */
  function SessionSummary(session: Record): Json {
    JObj(Put(Put(Put(Put(map[], "accessToken", Get(session, "access_token")),
      "refreshToken", Get(session, "refresh_token")), "expiresIn", Get(session, "expires_in")),
      "expiresAt", Get(session, "expires_at")))
  }

  /** `signUp`: a provider error mentioning 'already registered' is a 409; any other provider
      error a 400 with the provider's message; no user a 401; a user a 201. */
  function SignUp(answer: Answer): (r: HandlerResult)
    ensures answer.error.Some? && Includes(answer.error.value.message, "already registered") ==>
      r == Throw(NewConflictError("Email already registered"))
    ensures answer.error.Some? && !Includes(answer.error.value.message, "already registered") ==>
      r == Throw(NewValidationError(answer.error.value.message))
    ensures answer.error.None? && answer.user.None? ==> r == Throw(NewAuthenticationError(Some("Failed to create user")))
    ensures answer.error.None? && answer.user.Some? ==>
      r.Respond? && r.status == 201 && r.data.JObj? && r.data.fields.Keys == {"user", "session", "message"}
      && r.data.fields["user"] == JObj(UserSummary(answer.user.value))
      && r.data.fields["session"] == (if answer.session.Some? then JObj(answer.session.value) else JNull)
      && r.data.fields["message"] == JStr("Please check your email to verify your account")
  {
    if answer.error.Some? then
      if Includes(answer.error.value.message, "already registered") then Throw(NewConflictError("Email already registered"))
      else Throw(NewValidationError(answer.error.value.message))
    else if answer.user.None? then Throw(NewAuthenticationError(Some("Failed to create user")))
    else
      Respond(201, JObj(map[
        "user" := JObj(UserSummary(answer.user.value)),
        "session" := if answer.session.Some? then JObj(answer.session.value) else JNull,
        "message" := JStr("Please check your email to verify your account")]))
  }

  /** The duplicate-email test is a substring test anywhere in the provider's message. */
  lemma SignUpDuplicateIsSubstring(prefix: string, suffix: string)
    ensures SignUp(Answer(None, None, Some(ProviderError(prefix + "already registered" + suffix))))
            == Throw(NewConflictError("Email already registered"))
  {
    IncludesInfix(prefix, "already registered", suffix);
  }

  /** `signIn`: any provider error is the same 401, so the provider's text is never shown; a
      missing user or session is a 401 'Authentication failed'. */
  function SignIn(answer: Answer): (r: HandlerResult)
    ensures answer.error.Some? ==> r == Throw(NewAuthenticationError(Some("Invalid email or password")))
    ensures answer.error.None? && (answer.user.None? || answer.session.None?) ==> r == Throw(NewAuthenticationError(None))
    ensures answer.error.None? && answer.user.Some? && answer.session.Some? ==>
      r == Respond(200, JObj(map["user" := JObj(UserSummary(answer.user.value)),
                                 "session" := SessionSummary(answer.session.value)]))
  {
    if answer.error.Some? then Throw(NewAuthenticationError(Some("Invalid email or password")))
    else if answer.user.None? || answer.session.None? then Throw(NewAuthenticationError(Some("Authentication failed")))
    else Respond(200, JObj(map["user" := JObj(UserSummary(answer.user.value)),
                               "session" := SessionSummary(answer.session.value)]))
  }

  /** Two failed sign-ins with different provider messages give the same response. */
  lemma SignInHidesProviderText(a: Answer, b: Answer)
    requires a.error.Some? && b.error.Some?
    ensures SignIn(a) == SignIn(b)
    ensures SignIn(a).error.error.statusCode == 401
  {
  }

  /** `googleAuth`: a provider error is a 401 whose message appends the provider's; a missing
      user or session a 401 'Google authentication failed'. */
  function GoogleAuth(answer: Answer): (r: HandlerResult)
    ensures answer.error.Some? ==>
      r == Throw(NewAuthenticationError(Some("Google authentication failed: " + answer.error.value.message)))
    ensures answer.error.None? && (answer.user.None? || answer.session.None?) ==>
      r == Throw(NewAuthenticationError(Some("Google authentication failed")))
    ensures answer.error.None? && answer.user.Some? && answer.session.Some? ==>
      r == Respond(200, JObj(map[
        "user" := JObj(Put(UserSummary(answer.user.value), "avatar", GetPath(answer.user.value, "user_metadata", "avatar_url"))),
        "session" := SessionSummary(answer.session.value)]))
  {
    if answer.error.Some? then Throw(NewAuthenticationError(Some("Google authentication failed: " + answer.error.value.message)))
    else if answer.user.None? || answer.session.None? then Throw(NewAuthenticationError(Some("Google authentication failed")))
    else Respond(200, JObj(map[
      "user" := JObj(Put(UserSummary(answer.user.value), "avatar", GetPath(answer.user.value, "user_metadata", "avatar_url"))),
      "session" := SessionSummary(answer.session.value)]))
  }

  /** `getGoogleAuthUrl`: a provider error is a 401; otherwise the provider's URL. */
  function GoogleAuthUrl(url: Option<Json>, error: Option<ProviderError>): (r: HandlerResult)
    ensures error.Some? ==> r == Throw(NewAuthenticationError(Some("Failed to generate Google auth URL")))
    ensures error.None? ==> r == Respond(200, JObj(Put(map[], "url", url)))
  {
    if error.Some? then Throw(NewAuthenticationError(Some("Failed to generate Google auth URL")))
    else Respond(200, JObj(Put(map[], "url", url)))
  }

  /** `signOut`: the token is the Authorization header minus its first 7 characters, with no
      check of the prefix; the provider is asked to revoke it only when it is non-empty, and
      the answer is always the same success. */
  function SignOut(authorization: Option<string>): (out: (HandlerResult, seq<Call>))
    ensures out.0 == Respond(200, JObj(map["message" := JStr("Successfully signed out")]))
    ensures authorization.Some? && |authorization.value| > 7 ==> out.1 == [RevokeSession(Drop(authorization.value, 7))]
    ensures authorization.None? || |authorization.value| <= 7 ==> out.1 == []
  {
    var token := if authorization.Some? then Some(Drop(authorization.value, 7)) else None;
    var calls := if token.Some? && token.value != "" then [RevokeSession(token.value)] else [];
    (Respond(200, JObj(map["message" := JStr("Successfully signed out")])), calls)
  }

  /** Any seven characters are cut, whether or not they spell 'Bearer '. */
  lemma SignOutCutsAnyPrefix(prefix: string, token: string)
    requires |prefix| == 7 && token != ""
    ensures SignOut(Some(prefix + token)).1 == [RevokeSession(token)]
  {
    assert Drop(prefix + token, 7) == token;
  }

  /** `refreshToken`: a provider error is a 401 'Invalid or expired refresh token'; no session
      a 401 'Failed to refresh token'; otherwise the new session. */
  function RefreshToken(answer: Answer): (r: HandlerResult)
    ensures answer.error.Some? ==> r == Throw(NewAuthenticationError(Some("Invalid or expired refresh token")))
    ensures answer.error.None? && answer.session.None? ==> r == Throw(NewAuthenticationError(Some("Failed to refresh token")))
    ensures answer.error.None? && answer.session.Some? ==>
      r == Respond(200, JObj(map["session" := SessionSummary(answer.session.value)]))
  {
    if answer.error.Some? then Throw(NewAuthenticationError(Some("Invalid or expired refresh token")))
    else if answer.session.None? then Throw(NewAuthenticationError(Some("Failed to refresh token")))
    else Respond(200, JObj(map["session" := SessionSummary(answer.session.value)]))
  }

  /** The user object `getCurrentUser` sends. */
  function CurrentUser(user: Record): Record {
    Put(Put(Put(UserSummary(user), "avatar", GetPath(user, "user_metadata", "avatar_url")),
      "emailVerified", Some(JBool(Truthy(Get(user, "email_confirmed_at"))))), "createdAt", Get(user, "created_at"))
  }

  /** `emailVerified` is always sent, and is true exactly when `email_confirmed_at` holds a
      truthy value: a confirmation time is, an absent or null one is not. */
  lemma EmailVerified(user: Record, at: string)
    requires at != ""
    ensures "emailVerified" in CurrentUser(user)
    ensures CurrentUser(user)["emailVerified"] == JBool(Truthy(Get(user, "email_confirmed_at")))
    ensures CurrentUser(user["email_confirmed_at" := JStr(at)])["emailVerified"] == JBool(true)
    ensures CurrentUser(user["email_confirmed_at" := JNull])["emailVerified"] == JBool(false)
    ensures CurrentUser(user - {"email_confirmed_at"})["emailVerified"] == JBool(false)
  {
  }

  /** `getCurrentUser`: without `req.user` it is a 401 and the provider is not called;
      otherwise the provider is asked for that id, and a failure or no user is a 401. */
  function GetCurrentUser(principal: Option<Principal>, lookup: UserLookup): (out: (HandlerResult, seq<Call>))
    ensures principal.None? ==> out == (Throw(NewAuthenticationError(Some("User not authenticated"))), [])
    ensures principal.Some? ==> out.1 == [GetUserById(principal.value.id)]
    ensures principal.Some? && !lookup.UserFound? ==> out.0 == Throw(NewAuthenticationError(Some("User not found")))
    ensures principal.Some? && lookup.UserFound? ==> out.0 == Respond(200, JObj(map["user" := JObj(CurrentUser(lookup.user))]))
  {
    if principal.None? then (Throw(NewAuthenticationError(Some("User not authenticated"))), [])
    else
      var r := if lookup.UserFound? then Respond(200, JObj(map["user" := JObj(CurrentUser(lookup.user))]))
               else Throw(NewAuthenticationError(Some("User not found")));
      (r, [GetUserById(principal.value.id)])
  }

  /** `requestPasswordReset`: a provider error is a 400 with its message; otherwise the same
      answer whether or not the address exists. */
  function RequestPasswordReset(error: Option<ProviderError>): (r: HandlerResult)
    ensures error.Some? ==> r == Throw(NewValidationError(error.value.message))
    ensures error.None? ==> r == Respond(200, JObj(map["message" := JStr("If the email exists, a password reset link has been sent")]))
  {
    if error.Some? then Throw(NewValidationError(error.value.message))
    else Respond(200, JObj(map["message" := JStr("If the email exists, a password reset link has been sent")]))
  }

  /** `resetPassword`: a provider error is a 401 'Invalid or expired reset token'. */
  function ResetPassword(error: Option<ProviderError>): (r: HandlerResult)
    ensures error.Some? ==> r == Throw(NewAuthenticationError(Some("Invalid or expired reset token")))
    ensures error.None? ==> r == Respond(200, JObj(map["message" := JStr("Password successfully reset")]))
  {
    if error.Some? then Throw(NewAuthenticationError(Some("Invalid or expired reset token")))
    else Respond(200, JObj(map["message" := JStr("Password successfully reset")]))
  }
}
