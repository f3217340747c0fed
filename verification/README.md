# ApiKit in Dafny

A model of the core of ApiKit, a Swift networking library. The model covers:

- **The request pipeline.** `Api.send` runs a request through the registered interceptors in three phases:
  - every modify hook, which may rewrite or cancel the request;
  - the pre-send hooks, the first of which may claim the request and answer it itself;
  - the network reply, which the receive hooks may claim or which is status-checked and delivered to the caller's completion.
- **The simple interceptors:** the protocol's default hooks, the log interceptor with its duration bookkeeping and boxed console output, the chaos interceptor and the connectivity interceptor.
- **The three OAuth interceptors.** Each has a lock, a debounced "signed out" notification, a request hook that attaches, refreshes or cancels, and (in two of them) a 401 hook that re-sends.
- **The token layer:** token validity with its 60-second padding, the two token-state classifiers, and the OpenID Connect token manager that persists tokens into a keychain and a preferences store.
- **The value helpers:** header merging, request building, response status classification, case-insensitive header lookup and the `boxed` string formatter.

Time is integer seconds. The network reply, the hooks' answers, the keychain's statuses, the chaos draw, the path status and the JSON parse result are parameters. The pipeline yields a trace of `Step`s: hook replies, the request sent, claims and deliveries to the completion. "Settled" below means a delivery to the completion, or an interceptor's claim that answers it.

The 401 handlers re-send the request every time a 401 comes back: there is no retry counter.

Where the library's declarations disagree with `Api.swift`, the model follows `Api.swift`:

- `Api.swift` calls the modify callback with an optional request and reports a nil one as `ApiError.cancelled`. `ApiError.swift` declares no such case, and `ApiInterceptor.swift` declares the callback's argument non-optional. The model follows `Api.swift`: `ModifyReply` carries an `Option<Request>` and `Error` has a `Cancelled(request, id)` variant.

## Model

| member | source | states |
|---|---|---|
| Tokens.ValidityWindow | ApiKit-OAuth/Sources/TokenManager/Token.swift:12-32 | `expiresOn` is `retrievedOn + expiresIn`; valid iff `now <= expiresOn - 60`, the boundary inclusive; expired iff not valid |
| Tokens.ValidityMonotone | ApiKit-OAuth/Sources/TokenManager/Token.swift:26-32 | valid at a later instant implies valid earlier; expired earlier implies expired later |
| Tokens.ShortLivedTokenBornExpired | ApiKit-OAuth/Sources/TokenManager/Token.swift:12-28 | a token with `expiresIn < 60` is already expired when retrieved |
| TokenManagedProvider.ManagedTokenState | ApiKit-OAuth/Sources/OAuthTokenManagedProvider.swift:27-35 | valid (carrying the access-token string) iff the access token is present and valid; expired iff not, and the refresh token is; missing iff neither is; the three are exclusive and exhaustive |
| TokenManagedProvider.ValidIgnoresRefreshToken | ApiKit-OAuth/Sources/OAuthTokenManagedProvider.swift:28-34 | with a valid access token the refresh token does not matter |
| TokenManagedProvider.FreshTokenIsValid | ApiKit-OAuth/Sources/OAuthTokenManagedProvider.swift:27-35 | a token retrieved now is handed out, whatever the refresh token, iff its lifetime is at least the 60-second padding |
| TokenManagedProvider.RefreshOnlyIsExpired | ApiKit-OAuth/Sources/OAuthTokenManagedProvider.swift:28-32 | no access token with a valid refresh token gives expired |
| BearerAttach.AttachToken | ApiKit-OAuth/Sources/OAuthProvider.swift:29-38 | Authorization becomes `"Bearer " + token`, every other header is kept, a request without headers gets exactly that one header, URL, method and body unchanged |
| BearerAttach.AttachIdempotent | ApiKit-OAuth/Sources/OAuthProvider.swift:29-38 | attaching the same token twice equals attaching it once |
| BearerAttach.AttachLastTokenWins | ApiKit-OAuth/Sources/OAuthProvider.swift:32-33 | attaching a second token overwrites the first |
| HookEvents.BurstCoalesces | ApiKit-OAuth/Sources/OAuthInterceptor.swift:34-41 | a burst of notifications leaves one pending item carrying the last error; when it fires exactly that error is delivered |
| HookEvents.ScheduledItemsAccounted | ApiKit-OAuth/Sources/OAuthInterceptor.swift:34-41 | every scheduled notification is either cancelled, delivered or still pending |
| TokenOAuthInterceptor.OAuthInterceptor.constructor | ApiKit-OAuth/Sources/OAuthInterceptor.swift:29 | starts unlocked with no pending notification |
| TokenOAuthInterceptor.OAuthInterceptor.FailedToRenew | ApiKit-OAuth/Sources/OAuthInterceptor.swift:34-41 | the pending notification is replaced by one carrying the new error |
| TokenOAuthInterceptor.OAuthInterceptor.NotificationDue | ApiKit-OAuth/Sources/OAuthInterceptor.swift:34-41 | the pending notification, if any, is delivered |
| TokenOAuthInterceptor.OAuthInterceptor.ModifyRequest | ApiKit-OAuth/Sources/OAuthInterceptor.swift:43-74 | lock taken once and released once on every path; valid: forwards the token attached, no refresh; missing: forwards nil and schedules `noToken`; expired: refreshes exactly once, then forwards the refreshed token attached, or forwards nil and schedules the error |
| TokenOAuthInterceptor.MissingTokenNotifiesOnce | ApiKit-OAuth/Sources/OAuthInterceptor.swift:55-58 | three requests without a token give three cancellations and one notification |
| OidcTokens.PrefKeysDiffer | ApiKit-OAuth/Sources/OpenIDConnect/OIDCTokenManager.swift:92-99 | the `expires_in` and `retrieved_on` preference keys never collide |
| OidcTokens.StoreToken | ApiKit-OAuth/Sources/OpenIDConnect/OIDCTokenManager.swift:84-100 | nil deletes the keychain entry and removes both preference keys only if the delete reported success, and otherwise changes nothing; a token is saved, the preferences are written only if the save reported success, and a save that writes nothing leaves the whole store as it was; other keys never change |
| OidcTokens.RestoreToken | ApiKit-OAuth/Sources/OpenIDConnect/OIDCTokenManager.swift:102-115 | a token only when the entry exists, decodes as UTF-8 and both stored numbers are positive |
| OidcTokens.StoreRestoreRoundTrip | ApiKit-OAuth/Sources/OpenIDConnect/OIDCTokenManager.swift:84-115 | a token with positive lifetime and retrieval time whose save reports success is restored unchanged |
| OidcTokens.DeleteThenRestoreNothing | ApiKit-OAuth/Sources/OpenIDConnect/OIDCTokenManager.swift:85-91 | after a successful delete, or when there was nothing to delete, nothing is restored |
| OidcTokens.OverwriteKeepsStaleLifetime | ApiKit-OAuth/Sources/OpenIDConnect/OIDCTokenManager.swift:92-99 | overwriting a stored token updates the keychain but keeps the old lifetime, so the restored token mixes the two |
| OidcTokens.StoreTokenCorrected | ApiKit-OAuth/Sources/OpenIDConnect/OIDCTokenManager.swift:84-100 | storing a token goes through the corrected save, so the keychain is what that save writes; storing nil is unchanged |
| OidcTokens.StoreRestoreRoundTripCorrected | ApiKit-OAuth/Sources/OpenIDConnect/OIDCTokenManager.swift:84-115 | with the corrected save the round trip holds also when overwriting |
| OidcTokens.StoreIdToken | ApiKit-OAuth/Sources/OpenIDConnect/OIDCTokenManager.swift:75-82 | nil is a no-op; otherwise the keychain save only, preferences untouched |
| OidcTokens.ReadIdToken | ApiKit-OAuth/Sources/OpenIDConnect/OIDCTokenManager.swift:43-49 | the id token iff the keychain holds an item for it that decodes as UTF-8 |
| OidcTokens.IdTokenRoundTrip | ApiKit-OAuth/Sources/OpenIDConnect/OIDCTokenManager.swift:75-82 | a saved id token reads back unchanged |
| OidcTokens.OIDCTokenManager.constructor | ApiKit-OAuth/Sources/OpenIDConnect/OIDCTokenManager.swift:43-49 | the refresh and id tokens are restored from the store; the access token starts empty |
| OidcTokens.OIDCTokenManager.SetAccessToken | ApiKit-OAuth/Sources/OpenIDConnect/OIDCTokenManager.swift:15-19 | assigning the access token persists the current refresh token, never the access token |
| OidcTokens.OIDCTokenManager.SetRefreshToken | ApiKit-OAuth/Sources/OpenIDConnect/OIDCTokenManager.swift:21-25 | the refresh token is persisted under `refresh_token` |
| OidcTokens.OIDCTokenManager.SetIdToken | ApiKit-OAuth/Sources/OpenIDConnect/OIDCTokenManager.swift:27-31 | the id token is stored through `store(idToken:)` |
| OidcTokens.OIDCTokenManager.HasValidToken | ApiKit-OAuth/Sources/OpenIDConnect/OIDCTokenManager.swift:33-35 | true iff the refresh token alone classifies as expired, i.e. is present and valid |
| OidcTokens.OIDCTokenManager.Decode | ApiKit-OAuth/Sources/OpenIDConnect/OIDCTokenManager.swift:51-65 | unparsable: nothing changes; parsed: the access token is set now, and the refresh token (expiry defaulting to `Int.max`) and the id token (even nil) are queued for later |
| OidcTokens.OIDCTokenManager.Clear | ApiKit-OAuth/Sources/OpenIDConnect/OIDCTokenManager.swift:67-73 | queues the clearing of all three tokens |
| OidcTokens.OIDCTokenManager.RunMainTask | ApiKit-OAuth/Sources/OpenIDConnect/OIDCTokenManager.swift:55-72 | runs the oldest queued assignment with its persistence side effects, and nothing else |
| OidcTokens.OIDCTokenManager.TokenState | ApiKit-OAuth/Sources/OAuthTokenManagedProvider.swift:27-35 | the manager's state is the managed classification of its two tokens, and expired implies `hasValidToken` |
| OidcTokens.DecodeSurvivesRestart | ApiKit-OAuth/Sources/OpenIDConnect/OIDCTokenManager.swift:43-65 | after decoding a response with a refresh token, a new manager on the same store restores that refresh token and the id token |
| OidcTokens.ClearKeepsIdToken | ApiKit-OAuth/Sources/OpenIDConnect/OIDCTokenManager.swift:67-82 | after clear, a new manager restores no refresh token but still the old id token |
| Keychain.SaveItem | ApiKit-OAuth/Sources/KeychainHelper.swift:14-39 | reports true iff the key was new and the add succeeded; an existing key is overwritten when the update succeeds, though reported false |
| Keychain.SaveItemCorrected | ApiKit-OAuth/Sources/KeychainHelper.swift:14-39 | reports true iff the item was written |
| Keychain.SaveItemsAgree | ApiKit-OAuth/Sources/KeychainHelper.swift:23-38 | both versions write the same items and differ only in what they report, on an overwrite |
| Keychain.DeleteItem | ApiKit-OAuth/Sources/KeychainHelper.swift:55-65 | reports true iff the key was present and the delete succeeded, and then the key is gone |
| Keychain.ReadItem | ApiKit-OAuth/Sources/KeychainHelper.swift:41-53 | the stored data iff an item exists for the key |
| GoogleProvider.GoogleTokenState | ApiKit-Google/Sources/DefaultGoogleAuthProvider.swift:19-28 | missing iff no user; valid iff a user not yet expired and with a token, carrying that token; expired otherwise |
| GoogleProvider.GoogleRefreshResult | ApiKit-Google/Sources/DefaultGoogleAuthProvider.swift:34-53 | an SDK error passes through; no user gives `unknown`; no token gives `noToken`; otherwise success with the token |
| GoogleProvider.GoogleValidityHasNoPadding | ApiKit-Google/Sources/DefaultGoogleAuthProvider.swift:23-27 | valid up to and including the expiry instant, while a `Token` with the same expiry is valid at 60 seconds before it and expired from 59 seconds before it on |
| GoogleProvider.RestoredTokenIsValid | ApiKit-Google/Sources/DefaultGoogleAuthProvider.swift:19-53 | a successfully refreshed token classifies as valid before its expiry |
| Http.SuccessfulIsTwoHundredClass | ApiKit/Sources/HttpResponse.swift:28-35 | `statusCode` is the wrapped response's; successful iff 200 to 299 |
| Http.Lowercased | ApiKit/Sources/HttpResponse.swift:65-66 | character-wise lowercase of the same length |
| Http.FirstMatch | ApiKit/Sources/HttpResponse.swift:65-66 | nil iff no header name matches ignoring case; otherwise the value of a matching header |
| Http.HeaderValue | ApiKit/Sources/HttpResponse.swift:61-68 | nil iff no header name equals the requested field once both are lowercased; otherwise the value of the first such header |
| Http.HeaderValueIgnoresCase | ApiKit/Sources/HttpResponse.swift:61-68 | two field names with the same lowercase form give the same value |
| Http.Description | ApiKit/Sources/HttpResponse.swift:71-79 | the response description, followed by `"\n\n "` and the body only when the body is UTF-8 text |
| Http.DescriptionShowsTextBody | ApiKit/Sources/HttpResponse.swift:71-79 | a text body appears in the description |
| Http.MakeDecodedResponse | ApiKit/Sources/HttpResponse.swift:15-22 | keeps the raw response and data, and adds the body |
| HttpRequests.Combining | ApiKit/Sources/HttpRequest.swift:12-18 | every key of both maps; a key in only one keeps its value; a shared key gets the handler's choice |
| HttpRequests.CombiningKeepsFirst | ApiKit/Sources/HttpRequest.swift:16-18 | with the default handler the request's own value wins |
| HttpRequests.FromUrl | ApiKit/Sources/HttpRequest.swift:44-64 | stores url, method, headers and body as given |
| HttpRequests.FromHost | ApiKit/Sources/HttpRequest.swift:73-77 | the URL is host followed by path |
| HttpRequests.FromEndpoint | ApiKit/Sources/HttpRequest.swift:86-88 | the URL is endpoint URL followed by path; the headers are every key of both maps, a shared key getting the current `headerConflictHandler`'s choice |
| HttpRequests.Make | ApiKit/Sources/HttpRequest.swift:44-88 | the raw-body initialisers: the target's URL, the method and body given, the caller's headers merged with the endpoint's through the current conflict handler |
| HttpRequests.KeepFirstMergesOver | ApiKit/Sources/HttpRequest.swift:16-18 | under the default handler a merge keeps every caller header and only fills in missing keys |
| HttpRequests.MakeKeepsCallerHeaders | ApiKit/Sources/HttpRequest.swift:44-88 | with the default handler the caller's headers all survive and the endpoint only adds the rest |
| HttpRequests.MakeEncodable | ApiKit/Sources/HttpRequest.swift:109-154 | the encodable initialisers: the encoder's error, or the target's URL with the method given, the encoded body, Content-Type set to the given type, and every other header merged through the conflict handler as for `Make` |
| HttpRequests.MakeEncodableKeepsCallerHeaders | ApiKit/Sources/HttpRequest.swift:109-154 | with the default handler every caller header other than Content-Type survives and the endpoint only adds the rest |
| HttpRequests.FromUrlEncodable | ApiKit/Sources/HttpRequest.swift:110-120 | an encoder failure is thrown; otherwise the body is the encoding and Content-Type is set on top of the given headers |
| HttpRequests.EndpointEncodableContentTypeWins | ApiKit/Sources/HttpRequest.swift:145-154 | for endpoint requests with a body, the given content type beats the caller's and the endpoint's header whatever the handler; other shared headers get the handler's choice |
| HttpRequests.ToUrlRequest | ApiKit/Sources/HttpRequest.swift:30-36 | copies the method's raw value, the headers and the body unchanged |
| HttpRequests.HelpersUseTheirMethod | ApiKit/Sources/HttpRequest.swift:91-308 | each raw-body get/post/put/patch/delete helper builds the target's URL with its own method, the body given (none for get), and the caller's headers merged with the endpoint's through the conflict handler |
| HttpRequests.EncodableHelpersUseTheirMethod | ApiKit/Sources/HttpRequest.swift:170-337 | each encodable helper throws the encoder's error; otherwise it builds the target's URL with its own method, the encoded body and the given Content-Type, the four helpers differing only in the method |
| SessionProviders.DefaultModify | ApiKit/Sources/Interceptors/JWT/OAuthProvider.swift:31-40 | without headers the request gets exactly the bearer header; with headers it is returned unchanged |
| SessionProviders.DefaultModifyIgnoresExistingHeaders | ApiKit/Sources/Interceptors/JWT/OAuthProvider.swift:34-35 | a request with a stale bearer header keeps it |
| SessionProviders.DefaultModifyNeverAuthorizesLibraryRequests | ApiKit/Sources/Interceptors/JWT/OAuthProvider.swift:31-40 | every request built by `HttpRequest` has a header map, so the default never adds the token |
| SessionProviders.ModifyCorrected | ApiKit/Sources/Interceptors/JWT/OAuthProvider.swift:31-40 | the bearer header is set on the request's own map; every other header, URL, method and body are kept |
| SessionProviders.ModifyCorrectedAgreement | ApiKit/Sources/Interceptors/JWT/OAuthProvider.swift:31-40 | the two agree exactly when the request has no header map or already carries this bearer token |
| SessionOAuthInterceptor.OAuthInterceptor.constructor | ApiKit/Sources/Interceptors/OAuth/OAuthInterceptor.swift:23 | starts unlocked with no pending notification |
| SessionOAuthInterceptor.OAuthInterceptor.FailedToRenew | ApiKit/Sources/Interceptors/OAuth/OAuthInterceptor.swift:28-35 | the pending notification is replaced |
| SessionOAuthInterceptor.OAuthInterceptor.NotificationDue | ApiKit/Sources/Interceptors/OAuth/OAuthInterceptor.swift:28-35 | the pending notification, if any, is delivered |
| SessionOAuthInterceptor.OAuthInterceptor.ModifyRequest | ApiKit/Sources/Interceptors/OAuth/OAuthInterceptor.swift:37-56 | not signed in: forwarded unchanged, lock untouched; no token: lock released, nil notification, no reply; token: lock taken and released once, forwards `provider.modify(request, token)` |
| SessionOAuthInterceptor.OAuthInterceptor.DidReceive | ApiKit/Sources/Interceptors/OAuth/OAuthInterceptor.swift:58-91 | claims iff the reply is a 401; then the lock is taken and released once: not signed in schedules a nil notification, a restore re-sends the re-signed request, a failed restore schedules its error |
| SessionOAuthInterceptor.UnauthorizedResendsEveryTime | ApiKit/Sources/Interceptors/OAuth/OAuthInterceptor.swift:81-84 | a second 401 re-sends again: there is no retry limit |
| JwtInterceptor.OAuthInterceptor.constructor | ApiKit/Sources/Interceptors/JWT/OAuthInterceptor.swift:22 | starts unlocked with no pending notification |
| JwtInterceptor.OAuthInterceptor.IsLoggedOut | ApiKit/Sources/Interceptors/JWT/OAuthInterceptor.swift:27-34 | the pending work item is cancelled and replaced |
| JwtInterceptor.OAuthInterceptor.NotificationDue | ApiKit/Sources/Interceptors/JWT/OAuthInterceptor.swift:27-34 | the pending notification, if any, is delivered |
| JwtInterceptor.OAuthInterceptor.Wait | ApiKit/Sources/Interceptors/JWT/OAuthInterceptor.swift:47 | acquires the lock iff it was free; a held lock blocks |
| JwtInterceptor.OAuthInterceptor.ModifyRequest | ApiKit/Sources/Interceptors/JWT/OAuthInterceptor.swift:36-56 | not signed in: nil notification, no reply, lock untouched; a held lock blocks; no token: nil notification, no reply, and the lock stays held; token: lock taken and released, then the modified request forwarded |
| JwtInterceptor.OAuthInterceptor.ModifyRequestSignalled | ApiKit/Sources/Interceptors/JWT/OAuthInterceptor.swift:36-56 | the same hook with the lock released on the missing-token path: acquisitions and releases balance |
| JwtInterceptor.OAuthInterceptor.DidReceive | ApiKit/Sources/Interceptors/JWT/OAuthInterceptor.swift:58-91 | a non-401 is not claimed and changes nothing; a 401 while the lock is held blocks; otherwise a 401 is claimed with the lock taken and released: not signed in schedules a notification, a restore re-sends the re-signed request, a failed restore schedules its error |
| JwtInterceptor.MissingTokenBlocksLaterRequests | ApiKit/Sources/Interceptors/JWT/OAuthInterceptor.swift:47-51 | after a missing token the next request blocks on the lock and a 401 reply is never handled |
| JwtInterceptor.SignalledMissingTokenLetsLaterRequestsThrough | ApiKit/Sources/Interceptors/JWT/OAuthInterceptor.swift:47-55 | with the release added the next request goes through |
| ApiPipeline.FirstClaim | ApiKit/Sources/Api.swift:77-84 | the index of the first hook that claims, or none iff no hook claims |
| ApiPipeline.ExecuteInterceptor | ApiKit/Sources/Api.swift:77-84 | true iff some hook claims; hooks run in order up to and including the first claimant, all of them when none claims |
| ApiPipeline.TransformToResult | ApiKit/Sources/Api.swift:86-99 | a transport error fails with it; a missing or non-HTTP response fails with `notHttpRequest`; otherwise success with the HTTP response and the data |
| ApiPipeline.StatusChecked | ApiKit/Sources/Api.swift:127-148 | success iff a success with a 2xx status; a non-2xx success becomes `badStatusCode` carrying the response; failures pass through |
| ApiPipeline.PostReceive | ApiKit/Sources/Api.swift:127-148 | exactly one outcome: a claim by a receive hook iff some hook claims, otherwise delivery of the status-checked result |
| ApiPipeline.ModifyLoop | ApiKit/Sources/Api.swift:150-166 | a cancelled loop runs no further hook and returns; the loop gets stuck only waiting on a taken semaphore, which stays taken |
| ApiPipeline.PreSendAndNetwork | ApiKit/Sources/Api.swift:168-181 | the request is sent iff no pre-send hook claims; a claim is the first claimant's and is followed by at most its own delivery |
| ApiPipeline.SendSpec | ApiKit/Sources/Api.swift:116-187 | the operation is the modify loop followed by the pre-send phase exactly when the loop finished, cancelled or not |
| ApiPipeline.SendSpecCorrected | ApiKit/Sources/Api.swift:150-182 | as `SendSpec`, but the pre-send phase follows only a loop that finished uncancelled |
| ApiPipeline.Api.constructor | ApiKit/Sources/Api.swift:38-41 | the interceptors as given, the semaphore free |
| ApiPipeline.Api.DataTaskCompletion | ApiKit/Sources/Api.swift:127-148 | the completion's steps are those of `PostReceive` |
| ApiPipeline.Api.ModifyPhase | ApiKit/Sources/Api.swift:150-166 | the loop's trace, end and semaphore are those of the specification `ModifyLoop`: the semaphore is waited on before each hook, and a silent hook leaves it taken |
| ApiPipeline.Api.PreSend | ApiKit/Sources/Api.swift:168-182 | the pre-send and data-task trace of the specification `PreSendAndNetwork` |
| ApiPipeline.Api.Send | ApiKit/Sources/Api.swift:116-187 | the whole operation's trace and semaphore are those of `SendSpec` |
| SendProperties.ModifyLoopNeverSends | ApiKit/Sources/Api.swift:150-166 | the modify loop never sends or claims, and it delivers only cancellations |
| SendProperties.ModifyLoopOutcomes | ApiKit/Sources/Api.swift:150-166 | the loop settles nothing when it finishes uncancelled, with or without a silent last hook, or gets stuck, and settles once when it cancels |
| SendProperties.ModifyLoopThreads | ApiKit/Sources/Api.swift:150-166 | an uncancelled loop runs every hook once, each on the previous hook's request, only the last possibly silent, and ends with the last reply or the request the silent last hook was given |
| SendProperties.ForwardingLoopFinishes | ApiKit/Sources/Api.swift:150-166 | when every hook forwards, the loop finishes uncancelled |
| SendProperties.PreSendFacts | ApiKit/Sources/Api.swift:168-182 | at most one outcome; the request is sent iff no pre-send hook claims, and then exactly one outcome |
| SendProperties.ForwardingHooksThreadTheRequest | ApiKit/Sources/Api.swift:150-182 | hooks run in registration order and the pre-send hooks and data task see the last hook's request |
| SendProperties.EarlyCancelStopsPipeline | ApiKit/Sources/Api.swift:152-166 | a cancellation before the last hook settles the completion once with the cancellation, and nothing is sent |
| SendProperties.PreSendClaimSkipsNetwork | ApiKit/Sources/Api.swift:168-177 | when a pre-send hook claims, no data task is built |
| SendProperties.UnclaimedRequestSettlesOnce | ApiKit/Sources/Api.swift:116-187 | with no cancellation and no claim the final request is sent and the completion settled exactly once |
| SendProperties.LateCancelSettlesTwice | ApiKit/Sources/Api.swift:152-182 | a cancellation by the last hook is delivered, and then the request is still sent and settled again |
| SendProperties.LateCancelExample | ApiKit/Sources/Api.swift:152-182 | one cancelling interceptor: cancellation delivered, request sent, reply delivered |
| SendProperties.CorrectedSettlesAtMostOnce | ApiKit/Sources/Api.swift:152-182 | with the `cancelled` flag consulted again after the loop the completion settles at most once, once on any cancellation, and the behaviour is otherwise unchanged |
| SendProperties.DefaultsAreTransparent | ApiKit/Sources/ApiInterceptor.swift:50-75 | an interceptor with only default hooks forwards once, claims nothing, and behaves like no interceptor |
| ApiInterceptors.DefaultModifyRequest | ApiKit/Sources/ApiInterceptor.swift:60-66 | the default modify hook calls back once with the request unchanged |
| ApiInterceptors.DefaultWillSend | ApiKit/Sources/ApiInterceptor.swift:68-74 | the default pre-send hook never claims |
| ApiInterceptors.DefaultDidReceive | ApiKit/Sources/ApiInterceptor.swift:51-58 | the default response hook never claims |
| SendProperties.StalledHookBlocksLaterSends | ApiKit/Sources/Api.swift:150-181 | a silent only hook does not stop its request: it goes on to pre-send and, unclaimed, is sent and settled once; but the semaphore stays taken and the next send on the same Api blocks |
| SendProperties.ModifyLoopSilentBlocks | ApiKit/Sources/Api.swift:152-166 | a silent hook before the last one makes the loop stuck, ending on the next hook's wait |
| SendProperties.SilentHookBeforeLastStopsSend | ApiKit/Sources/Api.swift:152-181 | then the operation is just the loop: nothing sent, nothing settled |
| ApiRequests.RequestWith | ApiKit/Sources/Api.swift:197-214 | URL, method and headers as given, no body |
| ApiRequests.RequestHost | ApiKit/Sources/Api.swift:223-225 | the URL is host followed by path |
| ApiRequests.RequestEndpoint | ApiKit/Sources/Api.swift:234-239 | the URL is endpoint URL followed by path; headers merged through the configured handler |
| ApiRequests.BuildersAgree | ApiKit/Sources/Api.swift:43-45 | when the Api's configured handler is the same function as `HttpRequest.headerConflictHandler`, the Api's builders give the same request as the `HttpRequest` initialisers |
| ApiRequests.AddRawBody | ApiKit/Sources/Api.swift:244-248 | sets the body, changes nothing else |
| ApiRequests.AddRawBodyLastWins | ApiKit/Sources/Api.swift:244-248 | a second body replaces the first |
| ApiRequests.AddEncodable | ApiKit/Sources/Api.swift:250-259 | encoder failure thrown; otherwise the body is set, and Content-Type only when the request had no header map |
| ApiRequests.AddEncodableMissesContentType | ApiKit/Sources/Api.swift:253-254 | a request from the Api's builders never gets its Content-Type |
| ApiRequests.AddEncodableCorrected | ApiKit/Sources/Api.swift:250-259 | Content-Type set on the request's own header map, all other headers kept |
| ApiRequests.AddEncodableCorrectedMatchesInitialiser | ApiKit/Sources/Api.swift:250-259 | the corrected helper on a built request equals building with the encodable initialiser |
| ApiRequests.AddEncodableVersionsDiffer | ApiKit/Sources/Api.swift:253-254 | the two versions differ exactly when a header map exists without this Content-Type |
| ApiRequests.ChooseDecoder | ApiKit/Sources/Api.swift:273 | the given decoder, or else the configured one |
| ApiRequests.DecodeResult | ApiKit/Sources/Api.swift:271-287 | decoded success keeps the raw response; a failing decode gives `serializationFailed` carrying the response; failures pass through |
| ApiRequests.BodyOnly | ApiKit/Sources/Api.swift:297-308 | the decoded body, or the same error |
| ApiRequests.DecodedSuccessIsTwoHundredClass | ApiKit/Sources/Api.swift:271-287 | a decoded success always comes from a 2xx reply; a non-2xx reply is `badStatusCode` without decoding |
| Chaos.MakeChaos | ApiKit/Sources/Interceptors/ChaosInterceptor.swift:17-19 | the probability clamped into 0 to 100 |
| Chaos.ChaosWillSend | ApiKit/Sources/Interceptors/ChaosInterceptor.swift:25-39 | claims iff the draw is at most the probability, answering `monkeyingAround` |
| Chaos.FailureRateIsProbability | ApiKit/Sources/Interceptors/ChaosInterceptor.swift:30-31 | of the draws 1 to 100, exactly `probability` claim |
| Chaos.ClampedExtremes | ApiKit/Sources/Interceptors/ChaosInterceptor.swift:17-31 | probability 0 or below never claims; 100 or above always claims |
| Chaos.DefaultChaosFailsOneInFive | ApiKit/Sources/Interceptors/ChaosInterceptor.swift:17-19 | the default percentage is 20, and such an interceptor fails exactly 20 of the 100 draws |
| Chaos.AsInterceptor | ApiKit/Sources/Interceptors/ChaosInterceptor.swift:25-39 | only the pre-send hook is overridden |
| Chaos.ChaosFailsRequest | ApiKit/Sources/Interceptors/ChaosInterceptor.swift:30-36 | a claimed request is never sent and settles once with `monkeyingAround` |
| Chaos.ChaosOtherwiseTransparent | ApiKit/Sources/Interceptors/ChaosInterceptor.swift:38 | an unclaimed request behaves as with a default interceptor |
| Connectivity.ConnectivityWillSend | ApiKit/Sources/Interceptors/ConnectivityInterceptor.swift:33-39 | claims iff the path is not satisfied, answering `noConnectivity`; depends on nothing else |
| Connectivity.AsInterceptor | ApiKit/Sources/Interceptors/ConnectivityInterceptor.swift:19-40 | only the pre-send hook is overridden |
| Connectivity.OfflineNeverSends | ApiKit/Sources/Interceptors/ConnectivityInterceptor.swift:34-37 | offline, whatever interceptors follow (silent, cancelling or forwarding), nothing is sent; when the modify loop finishes and no receive hook claims the error, the trace ends `Claimed(0)`, `Delivered(noConnectivity)` |
| Connectivity.OnlineTransparent | ApiKit/Sources/Interceptors/ConnectivityInterceptor.swift:38 | online, behaves as a default interceptor |
| Logging.RequestSection | ApiKit/Sources/Interceptors/LogInterceptor.swift:49-56 | method and URL, plus the body only at verbose level and when it is text |
| Logging.Elapsed | ApiKit/Sources/Interceptors/LogInterceptor.swift:37-40 | the time since the recorded start, or 0 when no start was recorded |
| Logging.IdSectionLines | ApiKit/Sources/Interceptors/LogInterceptor.swift:43-47 | the first section is two lines: the request identifier and the time taken |
| Logging.ResponseSection | ApiKit/Sources/Interceptors/LogInterceptor.swift:57-75 | failures show the error; successes the status, plus the body only at verbose level |
| Logging.InfoHidesBodies | ApiKit/Sources/Interceptors/LogInterceptor.swift:53-64 | at info level the sections do not depend on either body |
| Logging.VerboseShowsBodies | ApiKit/Sources/Interceptors/LogInterceptor.swift:53-64 | at verbose level text bodies appear |
| Logging.MaxLineCount | ApiKit/Sources/Interceptors/LogInterceptor.swift:83-85 | the longest line over all sections capped at 200, or 1 when there are no lines |
| Logging.Print | ApiKit/Sources/Interceptors/LogInterceptor.swift:82-97 | the loop's output equals the specification `PrintedSpec` |
| Logging.PrintedLayout | ApiKit/Sources/Interceptors/LogInterceptor.swift:82-97 | the printed box reads back as top rule, each section's indented lines, a `-` rule after every section but the last, bottom rule |
| Logging.LogInterceptor.constructor | ApiKit/Sources/Interceptors/LogInterceptor.swift:21-23 | the level as given, no durations |
| Logging.LogInterceptor.Default | ApiKit/Sources/Interceptors/LogInterceptor.swift:21-23 | without a level the interceptor logs at info level, no durations |
| Logging.LogInterceptor.ModifyRequest | ApiKit/Sources/Interceptors/LogInterceptor.swift:28-34 | records the start time for the id and forwards the request unchanged |
| Logging.LogInterceptor.DidReceive | ApiKit/Sources/Interceptors/LogInterceptor.swift:36-80 | removes the id's entry and no other; never claims; prints the sections with the elapsed time, 0 when no start was recorded |
| Logging.TimedRequest | ApiKit/Sources/Interceptors/LogInterceptor.swift:28-80 | a request seen by both hooks reports the time between them |
| Logging.AsInterceptor | ApiKit/Sources/Interceptors/LogInterceptor.swift:28-80 | forwards every request unchanged and claims no reply |
| Logging.LoggingIsTransparent | ApiKit/Sources/Interceptors/LogInterceptor.swift:28-80 | logging does not change the pipeline's trace |
| Strings.Repeating | ApiKit/Sources/Helpers/StringExtensions.swift:11-13 | only characters of the text, starting with the text when count is positive |
| Strings.RepeatingAdds | ApiKit/Sources/Helpers/StringExtensions.swift:11-13 | `m + n` copies are `m` copies followed by `n` copies |
| Strings.RepeatingLength | ApiKit/Sources/Helpers/StringExtensions.swift:11-13 | `count` copies have `count` times the length of the text |
| Strings.RepeatingCopies | ApiKit/Sources/Helpers/StringExtensions.swift:11-13 | copy `i` sits between `i` copies and the rest |
| Strings.SplitLines | ApiKit/Sources/Helpers/StringExtensions.swift:16 | the pieces are non-empty and contain no newline |
| Strings.SplitUndoesJoin | ApiKit/Sources/Helpers/StringExtensions.swift:16 | splitting lines joined by newlines gives them back |
| Strings.BoxWidth | ApiKit/Sources/Helpers/StringExtensions.swift:20-24 | even; `largestLine + 2` or one more for non-negative counts, rounded towards zero below |
| Strings.MaxLength | ApiKit/Sources/Helpers/StringExtensions.swift:20-23 | the length of a longest line, none iff there are no lines |
| Strings.CenteredLineSpansBox | ApiKit/Sources/Helpers/StringExtensions.swift:30-34 | a centred line is padded by `(width - len) / 2` spaces on both sides; one a column wider than the box gets no padding |
| Strings.Boxed | ApiKit/Sources/Helpers/StringExtensions.swift:15-43 | the loop's output equals the specification `BoxedSpec`, for every input where no `repeating` count is negative: centred lines up to one wider than the box are accepted |
| Strings.SwiftHalf | ApiKit/Sources/Helpers/StringExtensions.swift:31 | halving truncates towards zero, so the padding is non-negative iff the free space is at least -1 |
| Strings.SelfSizedCenteredBox | ApiKit/Sources/Helpers/StringExtensions.swift:17-31 | a box sized by its own text can always be centred: every line is at least two narrower than the box |
| Strings.NothingToBox | ApiKit/Sources/Helpers/StringExtensions.swift:16-19 | no non-empty lines and no width gives `""` |
| Strings.UncentredBox | ApiKit/Sources/Helpers/StringExtensions.swift:26-41 | optional top rule and newline, `" " + line + "\n"` per line in order, optional bottom rule with no newline |
| Strings.BoxedLayout | ApiKit/Sources/Helpers/StringExtensions.swift:15-43 | the box reads back as the top rule, the indented lines and the bottom rule |
| Strings.BoxFitsText | ApiKit/Sources/Helpers/StringExtensions.swift:20-41 | a self-sized box's rules are at least two characters longer than every line |

## Left out

- `HttpOperation`, real concurrency and timing are not modelled: the semaphores, the operation queue, the 0.5 second debounce delay and the chaos interceptor's random delay. Each lock is a boolean, a wait on a held lock is a `Block` step, the debounce is a single replaceable slot, deferred main-queue assignments are an explicit later step, and a modify hook's callback either comes before the hook returns or never. In the source the semaphore only makes the next hook wait for the callback, so a late callback from the last hook races with the pre-send hooks; that race is not modelled.
- The asynchronous refresh and restore calls complete inline. Their results are parameters, so no interleavings with other requests are modelled.
- The Security framework, `URLSession`, `download`, the async/await wrappers and `Api.default` are not modelled. The keychain is a map, and the statuses of its add, update and delete are parameters. One `KeychainEnv` decides every keychain call of one manager step, so the two deletes of a queued `clear` share their status: a first delete that fails followed by a second that succeeds is not modelled.
- JSON and URL-encoded coding are abstract, possibly failing functions passed as parameters. `URL(string:)` and its `fatalError` are not modelled: URLs are strings.
- `Date` and `CFAbsoluteTime` are doubles in the library. Here time is integer seconds and the "Took" line prints an integer.
- The `NWPathMonitor` status and `Int.random` draw are parameters.
- `Swift.print` is not called: the logged text is returned.
- The Google Sign-In SDK is reduced to a user record and an error. `DefaultGoogleAuthInterceptor` is a one-line subclass and is not part of this model.
- `URLRequest`'s header keys are compared case-sensitively here.
- Characters are Unicode scalars, not Swift's grapheme clusters: lengths count scalars, and `split` also breaks a `\r\n` pair, which Swift keeps as one Character, so CRLF text is boxed and read back line by line differently from the program. `lowercased()` folds ASCII letters only.
- `localizedDescription` is a `describe` parameter.
- The `Self: AnyObject` constraint on the default hooks is not modelled.
- The three OAuth providers are modelled through their default hook implementations. Overrides are not modelled.
- The hooks are assumed to follow the rule that `ApiInterceptor.swift` documents but cannot enforce: a pre-send or receive hook calls the completion it is handed only when it returns true, meaning it has handled or will handle the request. A hook that returns false and still calls its completion cannot be expressed, so `PreSendFacts` and `CorrectedSettlesAtMostOnce` hold only for hooks that follow it.
- Inside `Api.send` the interceptors are pure answer functions. The stateful interceptors are modelled as classes on their own, and their traces are not fed back into the pipeline.
- The log's `httpMethod ?? "No Method"` and `url ?? "Unknown URL"` fallbacks are not modelled, because the model's request always has a URL and a method.
- Default arguments: an omitted header map is `map[]` and an omitted body `None`; an omitted encoder is the `encoded` parameter. The chaos percentage, the log level and the MIME type defaults are `Chaos.DefaultProbability`, `Logging.LogInterceptor.Default`, `ApiRequests.DefaultMimeType` and `HttpRequests.DefaultContentType`.
- Strings.Repeating: its own contract gives the exact length only for one-character texts. `RepeatingLength` and `RepeatingCopies` state the full length and layout.

## Findings

| source | as written | input that shows it | evidently intended | confidence | as-written member | corrected member |
|---|---|---|---|---|---|---|
| ApiKit/Sources/Api.swift:152-182 | `cancelled` is checked only at the top of the loop, so a cancellation by the last modify hook is delivered and the request is still sent | one interceptor whose modify hook replies nil | a cancelled request is never sent and its completion is called once | high, not executed | SendProperties.LateCancelSettlesTwice | SendProperties.CorrectedSettlesAtMostOnce |
| ApiKit/Sources/Interceptors/JWT/OAuthProvider.swift:34-35 | `updateValue` changes a local copy of the headers, so a request that has headers is returned without a token | any request with a header map, e.g. every `HttpRequest.urlRequest` | the bearer header is set on the request | high, not executed | SessionProviders.DefaultModifyIgnoresExistingHeaders | SessionProviders.ModifyCorrectedAgreement |
| ApiKit/Sources/Api.swift:253-254 | `add(encodable:)` sets Content-Type on a local copy when headers exist | a request built by `request(with:method:)` | Content-Type is set on the request | high, not executed | ApiRequests.AddEncodableMissesContentType | ApiRequests.AddEncodableCorrectedMatchesInitialiser |
| ApiKit/Sources/Interceptors/JWT/OAuthInterceptor.swift:48-51 | the missing-token path returns without releasing the semaphore | signed in, no cached token, then any second request | the lock is released on every path | high, not executed | JwtInterceptor.MissingTokenBlocksLaterRequests | JwtInterceptor.SignalledMissingTokenLetsLaterRequestsThrough |
| ApiKit-OAuth/Sources/KeychainHelper.swift:23-38 | an overwrite returns the add status, false, although the update succeeded, so the token manager skips writing the new lifetime | store a token twice under the same name | save reports whether the item was written | high, not executed | OidcTokens.OverwriteKeepsStaleLifetime | OidcTokens.StoreRestoreRoundTripCorrected |
