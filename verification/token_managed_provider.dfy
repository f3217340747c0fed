/**
 * OAuthTokenManagedProvider.swift: how a provider that owns a token manager reports
 * its token state from the stored access and refresh tokens.
 */
module TokenManagedProvider {
  import opened Wrappers
  import opened Tokens

  predicate Usable(t: Option<Token>, now: int) {
    t.Some? && !t.value.IsExpired(now)
  }

  /**
   * `tokenState`: a usable access token is handed out; otherwise a usable refresh
   * token means the access token can be renewed; otherwise nothing can be done.
   */
  function ManagedTokenState(accessToken: Option<Token>, refreshToken: Option<Token>, now: int): (s: TokenState)
    ensures s.Valid? <==> Usable(accessToken, now)
    ensures s.Valid? ==> s.token == accessToken.value.token
    ensures s.Expired? <==> !Usable(accessToken, now) && Usable(refreshToken, now)
    ensures s.Missing? <==> !Usable(accessToken, now) && !Usable(refreshToken, now)
  {
    if accessToken.None? || accessToken.value.IsExpired(now) then
      if refreshToken.None? || refreshToken.value.IsExpired(now) then
        Missing
      else
        Expired
    else
      Valid(accessToken.value.token)
  }

  /** A usable access token decides the state on its own: the refresh token is not consulted. */
  lemma ValidIgnoresRefreshToken(access: Token, r1: Option<Token>, r2: Option<Token>, now: int)
    requires access.IsValid(now)
    ensures ManagedTokenState(Some(access), r1, now) == ManagedTokenState(Some(access), r2, now) == Valid(access.token)
  {
  }

  /**
   * A token just retrieved is handed out exactly when its lifetime covers the 60-second
   * padding, whatever the refresh token.
   */
  lemma FreshTokenIsValid(access: Token, refresh: Option<Token>, now: int)
    requires access.retrievedOn == now
    ensures ManagedTokenState(Some(access), refresh, now) == Valid(access.token) <==> access.expiresIn >= ExpirationPadding
  {
  }

  /** With no access token and a usable refresh token the state is expired: a refresh is due. */
  lemma RefreshOnlyIsExpired(refresh: Token, now: int)
    requires refresh.IsValid(now)
    ensures ManagedTokenState(None, Some(refresh), now) == Expired
  {
  }
}
