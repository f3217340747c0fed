/**
 * Interceptors/OAuth/OAuthInterceptor.swift of the core package: attach the
 * provider's token before a request goes out, and on a 401 reply restore the
 * previous sign-in and submit the request again.
 *
 * What the provider reports is a `SessionProvider` snapshot; the outcome of
 * `restorePreviousSignIn` is a parameter.
 */
module SessionOAuthInterceptor {
  import opened Wrappers
  import opened Http
  import opened HookEvents
  import opened SessionProviders

  /** The hook claims a response exactly when it is a reply with status 401 (RFC 9110, section 15.5.2). */
  predicate Unauthorized(result: DataResult) {
    result.Success? && StatusCode(result.value) == 401
  }

  class OAuthInterceptor {
    /** The `DispatchSemaphore(value: 1)` is taken. */
    var locked: bool
    /** The `workItem` slot and what reached `onFailedToRenew`. */
    var notifier: Notifier

    /** Between hook calls the semaphore is free: every path through a hook signals it. */
    predicate Valid()
      reads this
    {
      !locked
    }

    constructor()
      ensures Valid() && notifier == Idle
    {
      locked := false;
      notifier := Idle;
    }

    /** `failedToRenew(with:)`: replace any waiting notification by one carrying `err`. */
    method FailedToRenew(err: Option<Error>)
      modifies this`notifier
      ensures notifier == old(notifier).Schedule(err)
    {
      notifier := notifier.Schedule(err);
    }

    /** The half-second delay of the waiting notification has passed on the main queue. */
    method NotificationDue()
      modifies this`notifier
      ensures notifier == old(notifier).Fire()
    {
      notifier := notifier.Fire();
    }

    /**
     * `api(_:modifyRequest:withId:onNewRequest:)`. Without a previous sign-in the
     * request passes unchanged and the semaphore is not touched; without a token
     * `onNewRequest` is never called, so the Api's semaphore stays taken: as the last
     * interceptor the request is still sent, without a token, and the next request on
     * that Api waits forever (see `SendProperties.StalledHookBlocksLaterSends`).
     */
    method ModifyRequest(request: Request, provider: SessionProvider) returns (events: seq<Event>)
      requires Valid()
      modifies this
      ensures Valid()
      ensures !provider.hasPreviousSignIn ==>
                events == [Forward(Some(request))] && notifier == old(notifier)
      ensures provider.hasPreviousSignIn && provider.token.None? ==>
                events == [Acquire, Release] && notifier == old(notifier).Schedule(None)
      ensures provider.hasPreviousSignIn && provider.token.Some? ==>
                events == [Acquire, Release, Forward(Some(provider.modifyRequest(request, provider.token.value)))]
                && notifier == old(notifier)
    {
      if !provider.hasPreviousSignIn {
        events := [Forward(Some(request))];
        return;
      }
      locked := true;
      events := [Acquire];
      if provider.token.None? {
        locked := false;
        events := events + [Release];
        FailedToRenew(None);
        return;
      }
      var newRequest := provider.modifyRequest(request, provider.token.value);
      locked := false;
      events := events + [Release, Forward(Some(newRequest))];
    }

    /**
     * `api(_:didReceive:withId:for:completion:)`; `restored` is what
     * `restorePreviousSignIn` hands its completion when it is asked. Nothing counts
     * retries: a 401 reply to a resubmitted request is handled the same way again.
     */
    method DidReceive(result: DataResult, request: Request, provider: SessionProvider, restored: Result<string, Error>)
      returns (claimed: bool, events: seq<Event>)
      requires Valid()
      modifies this
      ensures Valid()
      ensures claimed <==> Unauthorized(result)
      ensures !claimed ==> events == [] && notifier == old(notifier)
      ensures claimed && !provider.hasPreviousSignIn ==>
                events == [Acquire, Release] && notifier == old(notifier).Schedule(None)
      ensures claimed && provider.hasPreviousSignIn && restored.Success? ==>
                events == [Acquire, Refresh, Release, Resend(provider.modifyRequest(request, restored.value))]
                && notifier == old(notifier)
      ensures claimed && provider.hasPreviousSignIn && restored.Failure? ==>
                events == [Acquire, Refresh, Release] && notifier == old(notifier).Schedule(Some(restored.error))
    {
      if !Unauthorized(result) {
        return false, [];
      }
      claimed := true;
      locked := true;
      events := [Acquire];
      if !provider.hasPreviousSignIn {
        locked := false;
        events := events + [Release];
        FailedToRenew(None);
        return;
      }
      events := events + [Refresh];
      match restored
      case Success(newToken) =>
        locked := false;
        var newRequest := provider.modifyRequest(request, newToken);
        events := events + [Release, Resend(newRequest)];
      case Failure(err) =>
        locked := false;
        events := events + [Release];
        FailedToRenew(Some(err));
    }
  }

  /**
   * A server that keeps answering 401 while the sign-in keeps being restored makes
   * the interceptor resubmit every time: there is no limit on retries.
   */
  method UnauthorizedResendsEveryTime(reply: DataResponse, request: Request, provider: SessionProvider, token: string)
    returns (first: seq<Event>, second: seq<Event>)
    requires StatusCode(reply) == 401 && provider.hasPreviousSignIn
    ensures first == [Acquire, Refresh, Release, Resend(provider.modifyRequest(request, token))]
    ensures second == [Acquire, Refresh, Release, Resend(provider.modifyRequest(provider.modifyRequest(request, token), token))]
  {
    var interceptor := new OAuthInterceptor();
    var claimed;
    claimed, first := interceptor.DidReceive(Success(reply), request, provider, Success(token));
    claimed, second := interceptor.DidReceive(Success(reply), first[3].resent, provider, Success(token));
  }
}
