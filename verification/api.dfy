/**
 * Api.swift: the request pipeline of the private `send`. The modify hooks run in
 * registration order under the Api's semaphore, each getting the request the previous
 * one produced; a nil reply cancels. Then the pre-send hooks may claim the request;
 * otherwise the data task is sent. Every result goes through the response hooks,
 * the first claim winning, and an unclaimed reply outside 2xx becomes `badStatusCode`.
 *
 * A run is written down as a trace of `Step`s. The interceptors are their answers
 * (`ApiInterceptors.Interceptor`); what the data task hands back is an input.
 */
module ApiPipeline {
  import opened Wrappers
  import opened Utf8
  import opened Http
  import opened ApiInterceptors

  datatype Step =
    | Modified(index: nat, request: Request)  // modify hook `index` called onNewRequest with `request`
    | CancelledAt(index: nat)                 // modify hook `index` called onNewRequest with nil
    | Stalled(index: nat)                     // modify hook `index` never called onNewRequest: the semaphore stays taken
    | Blocked                                 // the Api's semaphore is taken for good: the operation waits forever
    | Claimed(index: nat)                     // pre-send hook `index` returned true
    | Sent(request: Request)                  // the data task for `request` is resumed
    | Handled(index: nat)                     // response hook `index` returned true
    | Delivered(result: DataResult)           // the caller's completion receives `result`

  /** A step that settles the caller's completion: delivered to it, or taken over by a response hook. */
  predicate IsOutcome(s: Step) {
    s.Handled? || s.Delivered?
  }

  function Outcomes(steps: seq<Step>): nat {
    if steps == [] then 0 else (if IsOutcome(steps[0]) then 1 else 0) + Outcomes(steps[1..])
  }

  lemma {:induction false} OutcomesAppend(a: seq<Step>, b: seq<Step>)
    ensures Outcomes(a + b) == Outcomes(a) + Outcomes(b)
  {
    if a == [] {
      assert a + b == b;
    } else {
      assert (a + b)[1..] == a[1..] + b;
      OutcomesAppend(a[1..], b);
    }
  }

  /** The index of the first hook that answers true, if any. */
  function FirstClaim(answers: seq<bool>): (r: Option<nat>)
    ensures r.Some? ==> r.value < |answers| && answers[r.value]
                        && forall j :: 0 <= j < r.value ==> !answers[j]
    ensures r.None? <==> forall j :: 0 <= j < |answers| ==> !answers[j]
  {
    if answers == [] then None
    else if answers[0] then Some(0)
    else match FirstClaim(answers[1..])
      case None => None
      case Some(i) => Some(i + 1)
  }

  /**
   * `executeInceptor`: ask the hooks in order and stop at the first that answers
   * true. `ran` is the number of hooks asked.
   */
  method ExecuteInterceptor(answers: seq<bool>) returns (claimed: bool, ran: nat)
    ensures claimed <==> FirstClaim(answers).Some?
    ensures claimed ==> ran == FirstClaim(answers).value + 1
    ensures !claimed ==> ran == |answers|
  {
    ran := 0;
    while ran < |answers|
      invariant 0 <= ran <= |answers|
      invariant forall j :: 0 <= j < ran ==> !answers[j]
    {
      if answers[ran] {
        return true, ran + 1;
      }
      ran := ran + 1;
    }
    return false, ran;
  }

  /** What a data task hands its completion handler. */
  datatype TaskOutput = TaskOutput(data: Option<Bytes>, response: Option<UrlResponse>, error: Option<Error>)

  /**
   * `transformToResult`: a transport error wins; then anything but an HTTP response
   * is `notHttpRequest`; otherwise a success whose body defaults to no bytes.
   */
  function TransformToResult(output: TaskOutput): (r: DataResult)
    ensures output.error.Some? ==> r == Failure(output.error.value)
    ensures output.error.None? && !(output.response.Some? && output.response.value.HttpResponse?) ==>
              r == Failure(NotHttpRequest)
    ensures r.Success? <==> output.error.None? && output.response.Some? && output.response.value.HttpResponse?
    ensures r.Success? ==> r.value.response == output.response.value.http
                           && r.value.data == output.data.GetOr([])
  {
    if output.error.Some? then Failure(output.error.value)
    else match output.response
      case Some(HttpResponse(http)) => Success(DataResponse(http, output.data.GetOr([])))
      case _ => Failure(NotHttpRequest)
  }

  /**
   * What the completion receives when no response hook claims: a reply outside 2xx
   * becomes `badStatusCode` carrying the reply; anything else passes through.
   */
  function StatusChecked(result: DataResult): (r: DataResult)
    ensures r.Success? <==> result.Success? && Successful(result.value)
    ensures r.Success? ==> r == result
    ensures result.Failure? ==> r == result
    ensures result.Success? && !Successful(result.value) ==> r == Failure(BadStatusCode(result.value))
  {
    if result.Success? && !Successful(result.value) then Failure(BadStatusCode(result.value)) else result
  }

  function ReceiveAnswers(ics: seq<Interceptor>, result: DataResult, request: Request): seq<bool> {
    seq(|ics|, i requires 0 <= i < |ics| => ics[i].didReceive(result, request))
  }

  function SendAnswers(ics: seq<Interceptor>, request: Request): seq<bool> {
    seq(|ics|, i requires 0 <= i < |ics| => ics[i].willSend(request).Claim?)
  }

  /** `dataTaskCompletion`: the first claiming response hook takes over; otherwise the status-checked result is delivered. */
  function PostReceive(ics: seq<Interceptor>, result: DataResult, request: Request): (steps: seq<Step>)
    ensures |steps| == 1 && IsOutcome(steps[0]) && Outcomes(steps) == 1
    ensures steps[0].Handled? <==> exists i :: 0 <= i < |ics| && ics[i].didReceive(result, request)
    ensures steps[0].Handled? ==> steps[0].index < |ics| && ics[steps[0].index].didReceive(result, request)
                                  && forall j :: 0 <= j < steps[0].index ==> !ics[j].didReceive(result, request)
    ensures steps[0].Delivered? ==> steps[0].result == StatusChecked(result)
  {
    var answers := ReceiveAnswers(ics, result, request);
    match FirstClaim(answers)
    case Some(i) =>
      assert answers[i] == ics[i].didReceive(result, request);
      assert forall j :: 0 <= j < i ==> answers[j] == ics[j].didReceive(result, request);
      [Handled(i)]
    case None =>
      assert forall j :: 0 <= j < |ics| ==> answers[j] == ics[j].didReceive(result, request);
      [Delivered(StatusChecked(result))]
  }

  /** How the modify loop ends: with a request (and the `cancelled` flag), by returning early, or never. */
  datatype LoopEnd = Finished(request: Request, cancelled: bool) | Returned | Stuck

  datatype Run = Run(steps: seq<Step>, end: LoopEnd, locked: bool)

  /**
   * The modify loop from hook `k` on, with `request` current, the `cancelled` flag and
   * the Api's semaphore as given. The flag is only looked at, and the semaphore only
   * waited on, before a hook runs: a hook that never replies leaves the semaphore taken,
   * so the next hook blocks, but after the last hook the loop simply ends.
   */
  function ModifyLoop(ics: seq<Interceptor>, id: Uuid, request: Request, cancelled: bool, locked: bool, k: nat): (r: Run)
    requires k <= |ics|
    ensures cancelled ==> r.steps == [] && !r.end.Stuck?
    ensures r.end.Stuck? ==> r.locked && r.steps != [] && r.steps[|r.steps| - 1] == Blocked
    decreases |ics| - k
  {
    if k == |ics| then Run([], Finished(request, cancelled), locked)
    else if cancelled then Run([], Returned, locked)
    else if locked then Run([Blocked], Stuck, true)
    else match ics[k].modifyRequest(request)
      case NoReply =>
        var rest := ModifyLoop(ics, id, request, false, true, k + 1);
        Run([Stalled(k)] + rest.steps, rest.end, rest.locked)
      case Replied(Some(next)) =>
        var rest := ModifyLoop(ics, id, next, false, false, k + 1);
        Run([Modified(k, next)] + rest.steps, rest.end, rest.locked)
      case Replied(None) =>
        var rest := ModifyLoop(ics, id, request, true, false, k + 1);
        Run([CancelledAt(k)] + PostReceive(ics, Failure(Cancelled(request, id)), request) + rest.steps, rest.end, rest.locked)
  }

  /** One forwarding reply: the run so far plus the rest of the loop, seen from the next hook. */
  lemma ModifiedStep(ics: seq<Interceptor>, id: Uuid, current: Request, next: Request, k: nat, steps: seq<Step>)
    requires k < |ics| && ics[k].modifyRequest(current) == Replied(Some(next))
    ensures var here := ModifyLoop(ics, id, current, false, false, k);
            var rest := ModifyLoop(ics, id, next, false, false, k + 1);
            Run(steps + here.steps, here.end, here.locked)
            == Run((steps + [Modified(k, next)]) + rest.steps, rest.end, rest.locked)
  {
    var rest := ModifyLoop(ics, id, next, false, false, k + 1);
    assert steps + ([Modified(k, next)] + rest.steps) == (steps + [Modified(k, next)]) + rest.steps;
  }

  /** One hook that never replies: the run so far plus the rest of the loop, with the semaphore still taken. */
  lemma StalledStep(ics: seq<Interceptor>, id: Uuid, current: Request, k: nat, steps: seq<Step>)
    requires k < |ics| && ics[k].modifyRequest(current) == NoReply
    ensures var here := ModifyLoop(ics, id, current, false, false, k);
            var rest := ModifyLoop(ics, id, current, false, true, k + 1);
            Run(steps + here.steps, here.end, here.locked)
            == Run((steps + [Stalled(k)]) + rest.steps, rest.end, rest.locked)
  {
    var rest := ModifyLoop(ics, id, current, false, true, k + 1);
    assert steps + ([Stalled(k)] + rest.steps) == (steps + [Stalled(k)]) + rest.steps;
  }

  /** One cancelling reply: the run so far plus the rest of the loop, seen from the next hook. */
  lemma CancelledStep(ics: seq<Interceptor>, id: Uuid, current: Request, k: nat, steps: seq<Step>)
    requires k < |ics| && ics[k].modifyRequest(current) == Replied(None)
    ensures var here := ModifyLoop(ics, id, current, false, false, k);
            var rest := ModifyLoop(ics, id, current, true, false, k + 1);
            var delivered := PostReceive(ics, Failure(Cancelled(current, id)), current);
            Run(steps + here.steps, here.end, here.locked)
            == Run((steps + [CancelledAt(k)] + delivered) + rest.steps, rest.end, rest.locked)
  {
    var rest := ModifyLoop(ics, id, current, true, false, k + 1);
    var delivered := PostReceive(ics, Failure(Cancelled(current, id)), current);
    assert steps + ([CancelledAt(k)] + delivered + rest.steps) == (steps + [CancelledAt(k)] + delivered) + rest.steps;
  }

  /** After the modify loop: a claiming pre-send hook owns the completion; otherwise the data task runs. */
  function PreSendAndNetwork(ics: seq<Interceptor>, request: Request, output: TaskOutput): (steps: seq<Step>)
    ensures steps != []
    ensures steps[0] == Sent(request) <==> FirstClaim(SendAnswers(ics, request)).None?
    ensures FirstClaim(SendAnswers(ics, request)).Some? ==>
              steps[0] == Claimed(FirstClaim(SendAnswers(ics, request)).value) && |steps| <= 2
  {
    match FirstClaim(SendAnswers(ics, request))
    case Some(i) =>
      [Claimed(i)] + (match ics[i].willSend(request).completion
                      case None => []
                      case Some(result) => PostReceive(ics, result, request))
    case None => [Sent(request)] + PostReceive(ics, TransformToResult(output), request)
  }

  /** The whole private `send` as written: whatever the loop's `cancelled` flag, a finished loop goes on to pre-send. */
  function SendSpec(ics: seq<Interceptor>, locked: bool, request: Request, id: Uuid, output: TaskOutput): (r: Run)
    ensures var run := ModifyLoop(ics, id, request, false, locked, 0);
            && r.end == run.end && r.locked == run.locked && run.steps <= r.steps
            && (|r.steps| > |run.steps| <==> run.end.Finished?)
  {
    var run := ModifyLoop(ics, id, request, false, locked, 0);
    match run.end
    case Finished(finalRequest, _) => Run(run.steps + PreSendAndNetwork(ics, finalRequest, output), run.end, run.locked)
    case _ => run
  }

  /** The evidently intended `send`: a cancellation by the last modify hook also ends the operation. */
  function SendSpecCorrected(ics: seq<Interceptor>, locked: bool, request: Request, id: Uuid, output: TaskOutput): (r: Run)
    ensures var run := ModifyLoop(ics, id, request, false, locked, 0);
            && r.end == run.end && r.locked == run.locked && run.steps <= r.steps
            && (|r.steps| > |run.steps| <==> run.end.Finished? && !run.end.cancelled)
  {
    var run := ModifyLoop(ics, id, request, false, locked, 0);
    match run.end
    case Finished(finalRequest, false) => Run(run.steps + PreSendAndNetwork(ics, finalRequest, output), run.end, run.locked)
    case _ => run
  }

  class Api {
    /** `config.interceptors`, in registration order. */
    var interceptors: seq<Interceptor>
    /** The Api's `DispatchSemaphore(value: 1)`, shared by all its operations, is taken. */
    var locked: bool

    constructor(interceptors: seq<Interceptor>)
      ensures this.interceptors == interceptors && !locked
    {
      this.interceptors := interceptors;
      locked := false;
    }

    /** `dataTaskCompletion` for the current `request`. */
    method DataTaskCompletion(result: DataResult, request: Request) returns (steps: seq<Step>)
      ensures steps == PostReceive(interceptors, result, request)
    {
      var claimed, ran := ExecuteInterceptor(ReceiveAnswers(interceptors, result, request));
      if claimed {
        return [Handled(ran - 1)];
      }
      if result.Success? && !Successful(result.value) {
        return [Delivered(Failure(BadStatusCode(result.value)))];
      }
      return [Delivered(result)];
    }

    /**
     * The `for interceptor in config.interceptors` loop of the private `send`: the
     * semaphore is waited on before each hook and released by its reply. `end` says how
     * the loop ended; a cancellation is delivered through `dataTaskCompletion` on the spot.
     */
    method ModifyPhase(request: Request, id: Uuid) returns (steps: seq<Step>, end: LoopEnd)
      modifies this`locked
      ensures ModifyLoop(interceptors, id, request, false, old(locked), 0) == Run(steps, end, locked)
    {
      var ics := interceptors;
      var current := request;
      var cancelled := false;
      var k := 0;
      steps := [];
      ghost var whole := ModifyLoop(ics, id, request, false, locked, 0);
      while k < |ics|
        invariant 0 <= k <= |ics|
        invariant var rest := ModifyLoop(ics, id, current, cancelled, locked, k);
                  whole == Run(steps + rest.steps, rest.end, rest.locked)
        decreases |ics| - k
      {
        if cancelled {
          return steps, Returned;
        }
        if locked {
          steps := steps + [Blocked];
          return steps, Stuck;
        }
        locked := true;
        match ics[k].modifyRequest(current) {
          case NoReply =>
            StalledStep(ics, id, current, k, steps);
            steps := steps + [Stalled(k)];
          case Replied(Some(next)) =>
            ModifiedStep(ics, id, current, next, k, steps);
            current := next;
            steps := steps + [Modified(k, next)];
            locked := false;
          case Replied(None) =>
            var delivered := DataTaskCompletion(Failure(Cancelled(current, id)), current);
            CancelledStep(ics, id, current, k, steps);
            cancelled := true;
            steps := steps + [CancelledAt(k)] + delivered;
            locked := false;
        }
        k := k + 1;
      }
      assert steps + [] == steps;
      end := Finished(current, cancelled);
    }

    /** The pre-send hooks, then, unless one claims, the data task and its completion. */
    method PreSend(request: Request, output: TaskOutput) returns (steps: seq<Step>)
      ensures steps == PreSendAndNetwork(interceptors, request, output)
    {
      var claimed, ran := ExecuteInterceptor(SendAnswers(interceptors, request));
      if claimed {
        var i := ran - 1;
        steps := [Claimed(i)];
        match interceptors[i].willSend(request).completion {
          case None =>
          case Some(result) =>
            var delivered := DataTaskCompletion(result, request);
            steps := steps + delivered;
        }
        return;
      }
      var delivered := DataTaskCompletion(TransformToResult(output), request);
      steps := [Sent(request)] + delivered;
    }

    /**
     * The operation block of the private `send(_:taskBuilder:completion:)` for a request
     * with identifier `id`, when the data task hands back `output`.
     */
    method Send(request: Request, id: Uuid, output: TaskOutput) returns (steps: seq<Step>)
      modifies this`locked
      ensures steps == SendSpec(interceptors, old(locked), request, id, output).steps
      ensures locked == SendSpec(interceptors, old(locked), request, id, output).locked
    {
      var end;
      steps, end := ModifyPhase(request, id);
      if end.Finished? {
        var rest := PreSend(end.request, output);
        steps := steps + rest;
      }
    }
  }
}
