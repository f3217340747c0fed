/**
 * Interceptors/JWT/OAuthInterceptor.swift of the core package: the same two hooks as
 * the OAuth variant, except that a missing previous sign-in reports "not signed in"
 * and stops the request, and a missing token returns while still holding the
 * semaphore.
 */
module JwtInterceptor {
  import opened Wrappers
  import opened Http
  import opened HookEvents
  import opened SessionProviders

  predicate Unauthorized(result: DataResult) {
    result.Success? && StatusCode(result.value) == 401
  }

  class OAuthInterceptor {
    /** The `DispatchSemaphore(value: 1)` is taken. */
    var locked: bool
    /** The `workItem` slot and what reached `onNotSignedIn`. */
    var notifier: Notifier

    constructor()
      ensures !locked && notifier == Idle
    {
      locked := false;
      notifier := Idle;
    }

    /** `isLoggedOut(with:)`: replace any waiting notification by one carrying `err`. */
    method IsLoggedOut(err: Option<Error>)
      modifies this`notifier
      ensures notifier == old(notifier).Schedule(err)
    {
      notifier := notifier.Schedule(err);
    }

    /** The half-second delay of the waiting notification has passed on the main queue. */
    method NotificationDue()
      modifies this`notifier
      ensures notifier == old(notifier).Fire()
    {
      notifier := notifier.Fire();
    }

    /** `semaphore.wait()`: take a free semaphore, or stop for good on a taken one. */
    method Wait() returns (acquired: bool)
      modifies this`locked
      ensures acquired == !old(locked) && locked
    {
      acquired := !locked;
      locked := true;
    }

    /**
     * `api(_:modifyRequest:withId:onNewRequest:)` as written: on a missing token the
     * hook returns without signalling, so the semaphore stays taken.
     */
    method ModifyRequest(request: Request, provider: SessionProvider) returns (events: seq<Event>)
      modifies this
      ensures !provider.hasPreviousSignIn ==>
                events == [] && locked == old(locked) && notifier == old(notifier).Schedule(None)
      ensures provider.hasPreviousSignIn && old(locked) ==>
                events == [Block] && locked && notifier == old(notifier)
      ensures provider.hasPreviousSignIn && !old(locked) && provider.token.None? ==>
                events == [Acquire] && locked && notifier == old(notifier).Schedule(None)
      ensures provider.hasPreviousSignIn && !old(locked) && provider.token.Some? ==>
                events == [Acquire, Release, Forward(Some(provider.modifyRequest(request, provider.token.value)))]
                && !locked && notifier == old(notifier)
    {
      if !provider.hasPreviousSignIn {
        IsLoggedOut(None);
        return [];
      }
      var acquired := Wait();
      if !acquired {
        return [Block];
      }
      events := [Acquire];
      if provider.token.None? {
        IsLoggedOut(None);
        return;
      }
      var newRequest := provider.modifyRequest(request, provider.token.value);
      locked := false;
      events := events + [Release, Forward(Some(newRequest))];
    }

    /** The hook with the missing-token path signalling the semaphore before it returns. */
    method ModifyRequestSignalled(request: Request, provider: SessionProvider) returns (events: seq<Event>)
      modifies this
      ensures !old(locked) ==> !locked
      ensures multiset(events)[Acquire] == multiset(events)[Release] || old(locked)
      ensures !provider.hasPreviousSignIn ==>
                events == [] && locked == old(locked) && notifier == old(notifier).Schedule(None)
      ensures provider.hasPreviousSignIn && old(locked) ==>
                events == [Block] && locked && notifier == old(notifier)
      ensures provider.hasPreviousSignIn && !old(locked) && provider.token.None? ==>
                events == [Acquire, Release] && notifier == old(notifier).Schedule(None)
      ensures provider.hasPreviousSignIn && !old(locked) && provider.token.Some? ==>
                events == [Acquire, Release, Forward(Some(provider.modifyRequest(request, provider.token.value)))]
                && notifier == old(notifier)
    {
      if !provider.hasPreviousSignIn {
        IsLoggedOut(None);
        return [];
      }
      var acquired := Wait();
      if !acquired {
        return [Block];
      }
      if provider.token.None? {
        locked := false;
        events := [Acquire, Release];
        assert multiset(events)[Acquire] == 1 == multiset(events)[Release];
        IsLoggedOut(None);
        return;
      }
      var newRequest := provider.modifyRequest(request, provider.token.value);
      locked := false;
      events := [Acquire, Release, Forward(Some(newRequest))];
      assert multiset(events)[Acquire] == 1 == multiset(events)[Release];
    }

    /**
     * `api(_:didReceive:withId:for:completion:)`. `returned` is None when the hook
     * never returns because the semaphore is taken for good.
     */
    method DidReceive(result: DataResult, request: Request, provider: SessionProvider, restored: Result<string, Error>)
      returns (returned: Option<bool>, events: seq<Event>)
      modifies this
      ensures !Unauthorized(result) ==>
                returned == Some(false) && events == [] && locked == old(locked) && notifier == old(notifier)
      ensures Unauthorized(result) && old(locked) ==>
                returned.None? && events == [Block] && locked && notifier == old(notifier)
      ensures Unauthorized(result) && !old(locked) ==> returned == Some(true) && !locked
      ensures Unauthorized(result) && !old(locked) && !provider.hasPreviousSignIn ==>
                events == [Acquire, Release] && notifier == old(notifier).Schedule(None)
      ensures Unauthorized(result) && !old(locked) && provider.hasPreviousSignIn && restored.Success? ==>
                events == [Acquire, Refresh, Release, Resend(provider.modifyRequest(request, restored.value))]
                && notifier == old(notifier)
      ensures Unauthorized(result) && !old(locked) && provider.hasPreviousSignIn && restored.Failure? ==>
                events == [Acquire, Refresh, Release] && notifier == old(notifier).Schedule(Some(restored.error))
    {
      if !Unauthorized(result) {
        return Some(false), [];
      }
      var acquired := Wait();
      if !acquired {
        return None, [Block];
      }
      returned := Some(true);
      events := [Acquire];
      if !provider.hasPreviousSignIn {
        locked := false;
        events := events + [Release];
        IsLoggedOut(None);
        return;
      }
      events := events + [Refresh];
      match restored
      case Success(newToken) =>
        locked := false;
        var newRequest := provider.modifyRequest(request, newToken);
        events := events + [Release, Resend(newRequest)];
      case Failure(err) =>
        locked := false;
        events := events + [Release];
        IsLoggedOut(Some(err));
    }
  }

  /**
   * As written: once one request meets a signed-in provider without a token, every
   * later request and every later 401 reply waits on the semaphore forever, even
   * after a token is available again.
   */
  method MissingTokenBlocksLaterRequests(request: Request, provider: SessionProvider, token: string, reply: DataResponse)
    returns (first: seq<Event>, second: seq<Event>, onReply: Option<bool>)
    requires provider.hasPreviousSignIn && provider.token.None? && StatusCode(reply) == 401
    ensures first == [Acquire]
    ensures second == [Block]
    ensures onReply.None?
  {
    var interceptor := new OAuthInterceptor();
    first := interceptor.ModifyRequest(request, provider);
    second := interceptor.ModifyRequest(request, provider.(token := Some(token)));
    var received;
    onReply, received := interceptor.DidReceive(Success(reply), request, provider, Success(token));
  }

  /** With the semaphore signalled on that path, the next request goes through once a token is there. */
  method SignalledMissingTokenLetsLaterRequestsThrough(request: Request, provider: SessionProvider, token: string)
    returns (first: seq<Event>, second: seq<Event>)
    requires provider.hasPreviousSignIn && provider.token.None?
    ensures first == [Acquire, Release]
    ensures second == [Acquire, Release, Forward(Some(provider.modifyRequest(request, token)))]
  {
    var interceptor := new OAuthInterceptor();
    first := interceptor.ModifyRequestSignalled(request, provider);
    second := interceptor.ModifyRequestSignalled(request, provider.(token := Some(token)));
  }
}
