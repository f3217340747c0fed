/**
 * DefaultGoogleAuthProvider.swift: the token state of the signed-in Google user and
 * the renewal through a silent restore of the previous sign-in. The sign-in SDK's
 * current user and its restore callback are parameters.
 */
module GoogleProvider {
  import opened Wrappers
  import opened Http
  import opened Tokens

  /** What the provider reads from a `GIDGoogleUser`: the access token's expiry and the token `token(for:)` returns. */
  datatype GoogleUser = GoogleUser(accessTokenExpirationDate: int, accessToken: Option<string>)

  /**
   * `tokenState`: no user is missing; a user whose token is past its expiry, or who
   * has no token, is expired; otherwise the token is valid up to and including the
   * expiry instant, with no padding.
   */
  function GoogleTokenState(currentUser: Option<GoogleUser>, now: int): (s: TokenState)
    ensures s.Missing? <==> currentUser.None?
    ensures s.Valid? <==> currentUser.Some? && now <= currentUser.value.accessTokenExpirationDate
                          && currentUser.value.accessToken.Some?
    ensures s.Valid? ==> s.token == currentUser.value.accessToken.value
  {
    match currentUser
    case None => Missing
    case Some(user) =>
      if now <= user.accessTokenExpirationDate && user.accessToken.Some? then
        Valid(user.accessToken.value)
      else
        Expired
  }

  /**
   * `refreshToken(completion:)` given what `restorePreviousSignIn` reported: an error
   * is passed on; no error and no user is `GoogleAuthError.unknown`; a user without a
   * token is `OAuthError.noToken`; otherwise the user's token.
   */
  function GoogleRefreshResult(user: Option<GoogleUser>, error: Option<Error>): (r: Result<string, Error>)
    ensures error.Some? ==> r == Failure(error.value)
    ensures error.None? && user.None? ==> r == Failure(GoogleUnknown)
    ensures error.None? && user.Some? && user.value.accessToken.None? ==> r == Failure(NoToken)
    ensures r.Success? <==> error.None? && user.Some? && user.value.accessToken.Some?
    ensures r.Success? ==> r.value == user.value.accessToken.value
  {
    if error.Some? then Failure(error.value)
    else if user.None? then Failure(GoogleUnknown)
    else if user.value.accessToken.None? then Failure(NoToken)
    else Success(user.value.accessToken.value)
  }

  /**
   * Unlike a managed `Token`, the Google token carries no 60-second padding: at its
   * very expiry instant it is still valid, while a managed token with the same expiry
   * has been expired for a minute.
   */
  lemma GoogleValidityHasNoPadding(t: string, expiry: int, lifetime: int)
    ensures GoogleTokenState(Some(GoogleUser(expiry, Some(t))), expiry) == Valid(t)
    ensures GoogleTokenState(Some(GoogleUser(expiry, Some(t))), expiry + 1) == Expired
    ensures Token(t, lifetime, expiry - lifetime).IsExpired(expiry)
    ensures Token(t, lifetime, expiry - lifetime).IsValid(expiry - 60)
    ensures Token(t, lifetime, expiry - lifetime).IsExpired(expiry - 59)
  {
  }

  /** A successful silent restore yields a token that the token state then reports as valid until its expiry. */
  lemma RestoredTokenIsValid(user: GoogleUser, now: int)
    requires GoogleRefreshResult(Some(user), None).Success?
    requires now <= user.accessTokenExpirationDate
    ensures GoogleTokenState(Some(user), now) == Valid(GoogleRefreshResult(Some(user), None).value)
  {
  }
}
