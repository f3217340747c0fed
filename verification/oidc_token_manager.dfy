/**
 * OIDCTokenManager.swift: the access, refresh and id tokens of one account, the
 * persistence their property observers perform, and the decoding of a token
 * response (RFC 6749, section 5.1; OpenID Connect Core 1.0, section 3.1.3.3).
 *
 * The keychain and `UserDefaults` are the two maps of a `Store`; time is whole
 * seconds. Blocks the source hands to `DispatchQueue.main.async` are queued as
 * `MainTask`s and run by an explicit later step.
 */
module OidcTokens {
  import opened Wrappers
  import opened Utf8
  import opened Tokens
  import opened Keychain
  import opened TokenManagedProvider

  const ExpiresInKey := "expires_in"
  const RetrievedOnKey := "retrieved_on"
  const RefreshTokenName := "refresh_token"
  const IdTokenService := "id_token"

  /** `Int.max`, the lifetime of a refresh token whose response gives none. */
  const IntMax: int := 0x7fff_ffff_ffff_ffff

  /** The keychain items and the integer preferences. */
  datatype Store = Store(keychain: Items, prefs: map<string, int>)

  /** The preference key `"<account>:<tokenName>:<suffix>"`. */
  function PrefKey(account: string, tokenName: string, suffix: string): string {
    account + ":" + tokenName + ":" + suffix
  }

  /** `UserDefaults.integer(forKey:)` and `double(forKey:)`: 0 for a key never set. */
  function PrefInt(prefs: map<string, int>, key: string): int {
    if key in prefs then prefs[key] else 0
  }

  lemma PrefKeysDiffer(account: string, tokenName: string)
    ensures PrefKey(account, tokenName, ExpiresInKey) != PrefKey(account, tokenName, RetrievedOnKey)
  {
    assert |PrefKey(account, tokenName, ExpiresInKey)| != |PrefKey(account, tokenName, RetrievedOnKey)|;
  }

  /**
   * `store(token:with:for:)`. A token is saved as UTF-8 under (`tokenName`,
   * `account`) and its lifetime and retrieval time go to the preferences only when
   * the save reports success. No token deletes the item, and the preferences go
   * only when the delete reports success. Nothing else in the store changes.
   */
  function StoreToken(s: Store, token: Option<Token>, tokenName: string, account: string, env: KeychainEnv): (r: Store)
    ensures var key := KeychainKey(tokenName, account);
            var expiresKey := PrefKey(account, tokenName, ExpiresInKey);
            var retrievedKey := PrefKey(account, tokenName, RetrievedOnKey);
            && (forall k :: k != key ==> (k in r.keychain <==> k in s.keychain))
            && (forall k :: k != key && k in s.keychain ==> r.keychain[k] == s.keychain[k])
            && (forall p :: p != expiresKey && p != retrievedKey ==> (p in r.prefs <==> p in s.prefs))
            && (forall p :: p != expiresKey && p != retrievedKey && p in s.prefs ==> r.prefs[p] == s.prefs[p])
            && (token.Some? && Writes(s.keychain, key, env) ==> key in r.keychain && r.keychain[key] == Encode(token.value.token))
            && (token.Some? && key !in s.keychain && env.addSucceeds ==>
                  PrefInt(r.prefs, expiresKey) == token.value.expiresIn && PrefInt(r.prefs, retrievedKey) == token.value.retrievedOn)
            && (token.Some? && key in s.keychain ==> r.prefs == s.prefs)
            && (token.Some? && !Writes(s.keychain, key, env) ==> r == s)
            && (token.None? && key in s.keychain && env.deleteSucceeds ==>
                  key !in r.keychain && expiresKey !in r.prefs && retrievedKey !in r.prefs)
            && (token.None? && !(key in s.keychain && env.deleteSucceeds) ==> r == s)
  {
    var key := KeychainKey(tokenName, account);
    var expiresKey := PrefKey(account, tokenName, ExpiresInKey);
    var retrievedKey := PrefKey(account, tokenName, RetrievedOnKey);
    PrefKeysDiffer(account, tokenName);
    match token
    case None =>
      var deleted := DeleteItem(s.keychain, key, env);
      if deleted.reported then Store(deleted.items, s.prefs - {expiresKey, retrievedKey})
      else Store(deleted.items, s.prefs)
    case Some(t) =>
      var saved := SaveItem(s.keychain, key, Encode(t.token), env);
      if saved.reported then Store(saved.items, s.prefs[expiresKey := t.expiresIn][retrievedKey := t.retrievedOn])
      else Store(saved.items, s.prefs)
  }

  /**
   * `token(with:for:)`: a token only when the item exists, decodes as UTF-8, and the
   * stored lifetime and retrieval time are both positive.
   */
  function RestoreToken(s: Store, tokenName: string, account: string): (r: Option<Token>)
    ensures var key := KeychainKey(tokenName, account);
            var expiresIn := PrefInt(s.prefs, PrefKey(account, tokenName, ExpiresInKey));
            var retrievedOn := PrefInt(s.prefs, PrefKey(account, tokenName, RetrievedOnKey));
            && (r.Some? <==> key in s.keychain && Decode(s.keychain[key]).Some? && expiresIn > 0 && retrievedOn > 0)
            && (r.Some? ==> r.value == Token(Decode(s.keychain[key]).value, expiresIn, retrievedOn))
  {
    var expiresIn := PrefInt(s.prefs, PrefKey(account, tokenName, ExpiresInKey));
    var retrievedOn := PrefInt(s.prefs, PrefKey(account, tokenName, RetrievedOnKey));
    match ReadItem(s.keychain, KeychainKey(tokenName, account))
    case None => None
    case Some(data) =>
      match Decode(data)
      case None => None
      case Some(text) =>
        if expiresIn > 0 && retrievedOn > 0 then Some(Token(text, expiresIn, retrievedOn)) else None
  }

  /** Storing a new token whose save reports success and restoring it gives the same token back. */
  lemma StoreRestoreRoundTrip(s: Store, t: Token, tokenName: string, account: string, env: KeychainEnv)
    requires t.expiresIn > 0 && t.retrievedOn > 0
    requires SaveItem(s.keychain, KeychainKey(tokenName, account), Encode(t.token), env).reported
    ensures RestoreToken(StoreToken(s, Some(t), tokenName, account, env), tokenName, account) == Some(t)
  {
    DecodeEncode(t.token);
  }

  /** After a successful delete, or when there was nothing to delete, nothing can be restored. */
  lemma DeleteThenRestoreNothing(s: Store, tokenName: string, account: string, env: KeychainEnv)
    requires env.deleteSucceeds || KeychainKey(tokenName, account) !in s.keychain
    ensures RestoreToken(StoreToken(s, None, tokenName, account, env), tokenName, account).None?
  {
  }

  /**
   * As written, overwriting a stored token keeps the old lifetime and retrieval
   * time: a one-hour token replaced by a one-minute token restores as the new text
   * with the old one-hour lifetime.
   */
  lemma OverwriteKeepsStaleLifetime(account: string)
    ensures var env := KeychainEnv(true, true, true);
            var first := StoreToken(Store(map[], map[]), Some(Token("old", 3600, 1000)), RefreshTokenName, account, env);
            var second := StoreToken(first, Some(Token("new", 60, 5000)), RefreshTokenName, account, env);
            RestoreToken(second, RefreshTokenName, account) == Some(Token("new", 3600, 1000))
  {
    var env := KeychainEnv(true, true, true);
    var first := StoreToken(Store(map[], map[]), Some(Token("old", 3600, 1000)), RefreshTokenName, account, env);
    var second := StoreToken(first, Some(Token("new", 60, 5000)), RefreshTokenName, account, env);
    DecodeEncode("new");
    assert Encode("new") == second.keychain[KeychainKey(RefreshTokenName, account)];
  }

  /** `store(token:with:for:)` on top of the evidently intended save, which also reports a successful update. */
  function StoreTokenCorrected(s: Store, token: Option<Token>, tokenName: string, account: string, env: KeychainEnv): (r: Store)
    ensures token.Some? ==> r.keychain == SaveItemCorrected(s.keychain, KeychainKey(tokenName, account), Encode(token.value.token), env).items
    ensures token.None? ==> r == StoreToken(s, None, tokenName, account, env)
  {
    var key := KeychainKey(tokenName, account);
    match token
    case None => StoreToken(s, None, tokenName, account, env)
    case Some(t) =>
      var saved := SaveItemCorrected(s.keychain, key, Encode(t.token), env);
      if saved.reported then
        Store(saved.items, s.prefs[PrefKey(account, tokenName, ExpiresInKey) := t.expiresIn][PrefKey(account, tokenName, RetrievedOnKey) := t.retrievedOn])
      else Store(saved.items, s.prefs)
  }

  /** With the corrected save, every token that is written restores exactly, overwrite or not. */
  lemma StoreRestoreRoundTripCorrected(s: Store, t: Token, tokenName: string, account: string, env: KeychainEnv)
    requires t.expiresIn > 0 && t.retrievedOn > 0
    requires Writes(s.keychain, KeychainKey(tokenName, account), env)
    ensures RestoreToken(StoreTokenCorrected(s, Some(t), tokenName, account, env), tokenName, account) == Some(t)
  {
    DecodeEncode(t.token);
    PrefKeysDiffer(account, tokenName);
  }

  /** `store(idToken:for:)`: a nil id token is not written at all; otherwise its UTF-8 bytes are saved. */
  function StoreIdToken(s: Store, idToken: Option<string>, account: string, env: KeychainEnv): (r: Store)
    ensures idToken.None? ==> r == s
    ensures r.prefs == s.prefs
    ensures idToken.Some? ==> r.keychain == SaveItem(s.keychain, KeychainKey(IdTokenService, account), Encode(idToken.value), env).items
  {
    match idToken
    case None => s
    case Some(text) => Store(SaveItem(s.keychain, KeychainKey(IdTokenService, account), Encode(text), env).items, s.prefs)
  }

  /** The id token read back by the initialiser: the saved bytes, when they are UTF-8. */
  function ReadIdToken(s: Store, account: string): (idToken: Option<string>)
    ensures var key := KeychainKey(IdTokenService, account);
            && (idToken.Some? <==> key in s.keychain && Decode(s.keychain[key]).Some?)
            && (idToken.Some? ==> idToken.value == Decode(s.keychain[key]).value)
  {
    match ReadItem(s.keychain, KeychainKey(IdTokenService, account))
    case None => None
    case Some(data) => Decode(data)
  }

  lemma IdTokenRoundTrip(s: Store, idToken: string, account: string, env: KeychainEnv)
    requires Writes(s.keychain, KeychainKey(IdTokenService, account), env)
    ensures ReadIdToken(StoreIdToken(s, Some(idToken), account, env), account) == Some(idToken)
  {
    DecodeEncode(idToken);
  }

  /** The fields of an `OIDCTokenResponse` the manager reads (the JSON itself is decoded elsewhere). */
  datatype OIDCTokenResponse = OIDCTokenResponse(
    accessToken: string,
    tokenType: string,
    expiresIn: int,
    refreshToken: Option<string>,
    refreshTokenExpiresIn: Option<int>,
    idToken: Option<string>)

  /** A block waiting on the main queue. */
  datatype MainTask =
    | AssignRefreshToken(token: string, expiresIn: int)
    | AssignIdToken(idToken: Option<string>)
    | ClearTokens

  class OIDCTokenManager {
    const account: string
    var accessToken: Option<Token>
    var refreshToken: Option<Token>
    var idToken: Option<string>
    /** The keychain and preferences as this manager's observers leave them. */
    var store: Store
    var mainQueue: seq<MainTask>

    /**
     * `init(account:)`: the id token and refresh token are read back from the store.
     * Observers do not run during initialisation, so nothing is written.
     */
    constructor(account: string, store: Store)
      ensures this.account == account && this.store == store
      ensures accessToken.None? && mainQueue == []
      ensures idToken == ReadIdToken(store, account)
      ensures refreshToken == RestoreToken(store, RefreshTokenName, account)
    {
      this.account := account;
      this.store := store;
      accessToken := None;
      mainQueue := [];
      idToken := ReadIdToken(store, account);
      refreshToken := RestoreToken(store, RefreshTokenName, account);
    }

    /** Assigning `accessToken`: its observer persists the current refresh token; the access token itself is never written. */
    method SetAccessToken(token: Option<Token>, env: KeychainEnv)
      modifies this`accessToken, this`store
      ensures accessToken == token
      ensures store == StoreToken(old(store), refreshToken, RefreshTokenName, account, env)
    {
      accessToken := token;
      store := StoreToken(store, refreshToken, RefreshTokenName, account, env);
    }

    /** Assigning `refreshToken`: its observer persists the new value under "refresh_token". */
    method SetRefreshToken(token: Option<Token>, env: KeychainEnv)
      modifies this`refreshToken, this`store
      ensures refreshToken == token
      ensures store == StoreToken(old(store), token, RefreshTokenName, account, env)
    {
      refreshToken := token;
      store := StoreToken(store, token, RefreshTokenName, account, env);
    }

    /** Assigning `idToken`: its observer saves a non-nil value. */
    method SetIdToken(token: Option<string>, env: KeychainEnv)
      modifies this`idToken, this`store
      ensures idToken == token
      ensures store == StoreIdToken(old(store), token, account, env)
    {
      idToken := token;
      store := StoreIdToken(store, token, account, env);
    }

    /** `hasValidToken`: the refresh token is present and valid, i.e. a managed provider could renew. */
    function HasValidToken(now: int): (r: bool)
      reads this
      ensures r <==> ManagedTokenState(None, refreshToken, now) == Expired
    {
      refreshToken.Some? && refreshToken.value.IsValid(now)
    }

    /**
     * `decode(from:)` with the JSON decoder's outcome: a response that does not parse
     * changes nothing; otherwise the access token is set now, and the refresh token
     * (lifetime `Int.max` when none is given) and the id token wait on the main queue.
     */
    method Decode(parsed: Option<OIDCTokenResponse>, now: int, env: KeychainEnv)
      modifies this
      ensures parsed.None? ==>
                accessToken == old(accessToken) && refreshToken == old(refreshToken) && idToken == old(idToken)
                && store == old(store) && mainQueue == old(mainQueue)
      ensures parsed.Some? ==>
                accessToken == Some(Token(parsed.value.accessToken, parsed.value.expiresIn, now))
                && refreshToken == old(refreshToken) && idToken == old(idToken)
                && store == StoreToken(old(store), old(refreshToken), RefreshTokenName, account, env)
      ensures parsed.Some? && parsed.value.refreshToken.Some? ==>
                mainQueue == old(mainQueue) + [AssignRefreshToken(parsed.value.refreshToken.value, parsed.value.refreshTokenExpiresIn.GetOr(IntMax)),
                                               AssignIdToken(parsed.value.idToken)]
      ensures parsed.Some? && parsed.value.refreshToken.None? ==>
                mainQueue == old(mainQueue) + [AssignIdToken(parsed.value.idToken)]
    {
      if parsed.None? {
        return;
      }
      var response := parsed.value;
      SetAccessToken(Some(Token(response.accessToken, response.expiresIn, now)), env);
      if response.refreshToken.Some? {
        var refreshTokenExpiresIn := response.refreshTokenExpiresIn.GetOr(IntMax);
        mainQueue := mainQueue + [AssignRefreshToken(response.refreshToken.value, refreshTokenExpiresIn)];
      }
      mainQueue := mainQueue + [AssignIdToken(response.idToken)];
    }

    /** `clear()`: one block on the main queue resets the refresh, id and access tokens, in that order. */
    method Clear()
      modifies this`mainQueue
      ensures mainQueue == old(mainQueue) + [ClearTokens]
    {
      mainQueue := mainQueue + [ClearTokens];
    }

    /** The main queue runs its oldest block at time `now`; an empty queue does nothing. */
    method RunMainTask(now: int, env: KeychainEnv)
      modifies this
      ensures old(mainQueue) == [] ==>
                mainQueue == [] && accessToken == old(accessToken) && refreshToken == old(refreshToken)
                && idToken == old(idToken) && store == old(store)
      ensures old(mainQueue) != [] ==> mainQueue == old(mainQueue)[1..]
      ensures old(mainQueue) != [] && old(mainQueue)[0].AssignRefreshToken? ==>
                var task := old(mainQueue)[0];
                refreshToken == Some(Token(task.token, task.expiresIn, now))
                && store == StoreToken(old(store), refreshToken, RefreshTokenName, account, env)
                && accessToken == old(accessToken) && idToken == old(idToken)
      ensures old(mainQueue) != [] && old(mainQueue)[0].AssignIdToken? ==>
                idToken == old(mainQueue)[0].idToken
                && store == StoreIdToken(old(store), idToken, account, env)
                && accessToken == old(accessToken) && refreshToken == old(refreshToken)
      ensures old(mainQueue) != [] && old(mainQueue)[0].ClearTokens? ==>
                accessToken.None? && refreshToken.None? && idToken.None?
                && store == StoreToken(StoreToken(old(store), None, RefreshTokenName, account, env), None, RefreshTokenName, account, env)
    {
      if mainQueue == [] {
        return;
      }
      var task := mainQueue[0];
      mainQueue := mainQueue[1..];
      match task
      case AssignRefreshToken(token, expiresIn) =>
        SetRefreshToken(Some(Token(token, expiresIn, now)), env);
      case AssignIdToken(value) =>
        SetIdToken(value, env);
      case ClearTokens =>
        SetRefreshToken(None, env);
        SetIdToken(None, env);
        SetAccessToken(None, env);
    }

    /** `tokenState` of a provider managing this manager's tokens. */
    method TokenState(now: int) returns (s: TokenState)
      ensures s == ManagedTokenState(accessToken, refreshToken, now)
      ensures s.Expired? ==> HasValidToken(now)
    {
      s := ManagedTokenState(accessToken, refreshToken, now);
    }
  }

  /**
   * A parsed response carrying a refresh token, decoded into a fresh manager and with
   * the main queue drained at `later`, is what a manager created afterwards on the same
   * store reads back: the refresh token retrieved at `later`, and the id token.
   */
  method DecodeSurvivesRestart(account: string, s: Store, response: OIDCTokenResponse, now: int, later: int, env: KeychainEnv)
    returns (restoredRefresh: Option<Token>, restoredId: Option<string>)
    requires KeychainKey(RefreshTokenName, account) !in s.keychain
    requires KeychainKey(IdTokenService, account) !in s.keychain
    requires env.addSucceeds && later > 0
    requires response.refreshToken.Some? && response.idToken.Some?
    requires response.refreshTokenExpiresIn.None? || response.refreshTokenExpiresIn.value > 0
    ensures restoredRefresh == Some(Token(response.refreshToken.value, response.refreshTokenExpiresIn.GetOr(IntMax), later))
    ensures restoredId == response.idToken
  {
    var manager := new OIDCTokenManager(account, s);
    manager.Decode(Some(response), now, env);
    assert manager.store == s;
    manager.RunMainTask(later, env);
    var refresh := manager.refreshToken.value;
    StoreRestoreRoundTrip(s, refresh, RefreshTokenName, account, env);
    var afterRefresh := manager.store;
    manager.RunMainTask(later, env);
    IdTokenRoundTrip(afterRefresh, response.idToken.value, account, env);
    var restarted := new OIDCTokenManager(account, manager.store);
    restoredRefresh := restarted.refreshToken;
    restoredId := restarted.idToken;
    assert manager.store.prefs == afterRefresh.prefs;
    assert KeychainKey(RefreshTokenName, account) != KeychainKey(IdTokenService, account);
  }

  /**
   * `clear()` resets the three tokens and deletes the persisted refresh token, but a
   * nil id token is never written, so a manager created afterwards reads the old id
   * token back.
   */
  method ClearKeepsIdToken(account: string, s: Store, now: int, env: KeychainEnv)
    returns (restoredRefresh: Option<Token>, restoredId: Option<string>)
    requires env.deleteSucceeds
    ensures restoredRefresh.None?
    ensures restoredId == ReadIdToken(s, account)
  {
    var manager := new OIDCTokenManager(account, s);
    manager.Clear();
    manager.RunMainTask(now, env);
    var restarted := new OIDCTokenManager(account, manager.store);
    restoredRefresh := restarted.refreshToken;
    restoredId := restarted.idToken;
    assert KeychainKey(RefreshTokenName, account) != KeychainKey(IdTokenService, account);
  }
}
