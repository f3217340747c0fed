/**
 * What the authentication interceptors do, written down as a trace of observable
 * steps, and the single-slot debounce of their "could not sign in" callback.
 *
 * Each interceptor owns a `DispatchSemaphore(value: 1)`, modelled as a lock flag:
 * `Acquire` is a `wait()` that returns, `Block` a `wait()` on a semaphore nobody
 * will signal again (the hook never continues), `Release` a `signal()`.
 */
module HookEvents {
  import opened Wrappers
  import opened Http

  datatype Event =
    | Acquire                          // semaphore.wait() returns with the semaphore taken
    | Block                            // semaphore.wait() on a taken semaphore: the hook stops here
    | Release                          // semaphore.signal()
    | Refresh                          // the provider is asked to renew the token
    | Forward(request: Option<Request>) // onNewRequest is called (None: the request is cancelled)
    | Resend(resent: Request)          // the request is submitted again through `Api.send`

  /**
   * The notification slot: the `DispatchWorkItem` waiting on the main queue (with
   * the error it carries), how many were cancelled before they ran, and the errors
   * that reached the callback, in order.
   */
  datatype Notifier = Notifier(pending: Option<Option<Error>>, cancelled: nat, delivered: seq<Option<Error>>) {
    /** Cancel the waiting item, if any, and put a new one carrying `err` in its place. */
    function Schedule(err: Option<Error>): Notifier {
      Notifier(Some(err), cancelled + (if pending.Some? then 1 else 0), delivered)
    }

    /** Half a second has passed: the waiting item, if any, runs and calls back. */
    function Fire(): Notifier {
      match pending
      case None => this
      case Some(err) => Notifier(None, cancelled, delivered + [err])
    }
  }

  const Idle := Notifier(None, 0, [])

  /** A burst of failures reported one after the other, none of them yet delivered. */
  function ScheduleAll(n: Notifier, errs: seq<Option<Error>>): Notifier
    decreases |errs|
  {
    if errs == [] then n else ScheduleAll(n.Schedule(errs[0]), errs[1..])
  }

  /**
   * A burst of failures inside the half-second window reaches the callback once,
   * carrying the last error; every earlier item of the burst is cancelled.
   */
  lemma {:induction false} BurstCoalesces(n: Notifier, errs: seq<Option<Error>>)
    requires errs != []
    decreases |errs|
    ensures ScheduleAll(n, errs).pending == Some(errs[|errs| - 1])
    ensures ScheduleAll(n, errs).delivered == n.delivered
    ensures ScheduleAll(n, errs).cancelled == n.cancelled + |errs| - 1 + (if n.pending.Some? then 1 else 0)
    ensures ScheduleAll(n, errs).Fire().delivered == n.delivered + [errs[|errs| - 1]]
    ensures ScheduleAll(n, errs).Fire().pending.None?
  {
    if |errs| > 1 {
      BurstCoalesces(n.Schedule(errs[0]), errs[1..]);
      assert errs[1..][|errs[1..]| - 1] == errs[|errs| - 1];
    }
  }

  /** Nothing is lost: every item scheduled is cancelled, delivered, or still waiting. */
  lemma {:induction false} ScheduledItemsAccounted(n: Notifier, errs: seq<Option<Error>>)
    ensures var m := ScheduleAll(n, errs);
            m.cancelled + |m.delivered| + (if m.pending.Some? then 1 else 0)
            == n.cancelled + |n.delivered| + (if n.pending.Some? then 1 else 0) + |errs|
    decreases |errs|
  {
    if errs != [] {
      ScheduledItemsAccounted(n.Schedule(errs[0]), errs[1..]);
    }
  }
}
