/**
 * OAuthInterceptor.swift of the OAuth package: before a request goes out, read the
 * provider's token state under the interceptor's semaphore, attach a valid token,
 * renew an expired one, and cancel the request when there is nothing to attach.
 *
 * The provider's `tokenState` and the outcome of its `refreshToken` are parameters;
 * the provider's `attach` is the default bearer attachment.
 */
module TokenOAuthInterceptor {
  import opened Wrappers
  import opened Http
  import opened Tokens
  import opened BearerAttach
  import opened HookEvents

  class OAuthInterceptor {
    /** The `DispatchSemaphore(value: 1)` is taken. */
    var locked: bool
    /** The `workItem` slot and what reached `onFailedToRenew`. */
    var notifier: Notifier

    /** Between hook calls the semaphore is free: every path through a hook signals it. */
    predicate Valid()
      reads this
    {
      !locked
    }

    constructor()
      ensures Valid() && notifier == Idle
    {
      locked := false;
      notifier := Idle;
    }

    /** `failedToRenew(with:)`: replace any waiting notification by one carrying `err`. */
    method FailedToRenew(err: Option<Error>)
      modifies this`notifier
      ensures notifier == old(notifier).Schedule(err)
    {
      notifier := notifier.Schedule(err);
    }

    /** The half-second delay of the waiting notification has passed on the main queue. */
    method NotificationDue()
      modifies this`notifier
      ensures notifier == old(notifier).Fire()
    {
      notifier := notifier.Fire();
    }

    /**
     * `api(_:modifyRequest:withId:onNewRequest:)` with the provider reporting `state`;
     * `refreshed` is what `refreshToken` hands its completion when it is asked.
     */
    method ModifyRequest(request: Request, state: TokenState, refreshed: Result<string, Error>) returns (events: seq<Event>)
      requires Valid()
      modifies this
      ensures Valid()
      ensures (Refresh in events) <==> state.Expired?
      ensures state.Valid? ==>
                events == [Acquire, Release, Forward(Some(AttachToken(state.token, request)))]
                && notifier == old(notifier)
      ensures state.Missing? ==>
                events == [Acquire, Release, Forward(None)]
                && notifier == old(notifier).Schedule(Some(NoToken))
      ensures state.Expired? && refreshed.Success? ==>
                events == [Acquire, Refresh, Release, Forward(Some(AttachToken(refreshed.value, request)))]
                && notifier == old(notifier)
      ensures state.Expired? && refreshed.Failure? ==>
                events == [Acquire, Refresh, Release, Forward(None)]
                && notifier == old(notifier).Schedule(Some(refreshed.error))
    {
      locked := true;
      events := [Acquire];
      if state != Expired {
        locked := false;
        events := events + [Release];
        if state.Valid? {
          events := events + [Forward(Some(AttachToken(state.token, request)))];
        } else {
          events := events + [Forward(None)];
          FailedToRenew(Some(NoToken));
        }
        return;
      }
      events := events + [Refresh];
      match refreshed
      case Success(token) =>
        var newRequest := AttachToken(token, request);
        locked := false;
        events := events + [Release, Forward(Some(newRequest))];
      case Failure(err) =>
        locked := false;
        events := events + [Release, Forward(None)];
        FailedToRenew(Some(err));
    }
  }

  /**
   * Three requests meeting a missing token in a row: each is cancelled at once, and
   * once the half second has passed the callback hears of it a single time, with
   * `noToken`.
   */
  method MissingTokenNotifiesOnce(r1: Request, r2: Request, r3: Request, refreshed: Result<string, Error>)
    returns (forwarded: seq<Event>, delivered: seq<Option<Error>>)
    ensures forwarded == [Forward(None), Forward(None), Forward(None)]
    ensures delivered == [Some(NoToken)]
  {
    var interceptor := new OAuthInterceptor();
    var e1 := interceptor.ModifyRequest(r1, Missing, refreshed);
    var e2 := interceptor.ModifyRequest(r2, Missing, refreshed);
    var e3 := interceptor.ModifyRequest(r3, Missing, refreshed);
    forwarded := [e1[2], e2[2], e3[2]];
    interceptor.NotificationDue();
    delivered := interceptor.notifier.delivered;
  }
}
