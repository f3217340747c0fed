/**
 * Properties of the `Api.send` pipeline of Api.swift: hook order and request
 * threading, cancellation, pre-send claims, and how many times the caller's
 * completion is settled.
 */
module SendProperties {
  import opened Wrappers
  import opened Http
  import opened ApiInterceptors
  import opened ApiPipeline

  /**
   * `steps` are the replies of hooks k, k+1, ... in that order, each hook having been
   * given the request the previous one produced, starting from `request`; only the
   * last hook may have stayed silent.
   */
  predicate Threads(ics: seq<Interceptor>, request: Request, steps: seq<Step>, k: nat)
    decreases |steps|
  {
    steps == []
    || (steps == [Stalled(k)] && k + 1 == |ics| && ics[k].modifyRequest(request) == NoReply)
    || (steps[0].Modified? && steps[0].index == k && k < |ics|
        && ics[k].modifyRequest(request) == Replied(Some(steps[0].request))
        && Threads(ics, steps[0].request, steps[1..], k + 1))
  }

  /** Every modify hook from `k` on calls `onNewRequest` with a request. */
  predicate AllForward(ics: seq<Interceptor>, request: Request, k: nat)
    requires k <= |ics|
    decreases |ics| - k
  {
    k == |ics|
    || (ics[k].modifyRequest(request).Replied? && ics[k].modifyRequest(request).request.Some?
        && AllForward(ics, ics[k].modifyRequest(request).request.value, k + 1))
  }

  /** A cancellation delivered by the pipeline itself carries this request identifier. */
  predicate CancelledFor(s: Step, id: Uuid) {
    s.Delivered? ==> s.result.Failure? && s.result.error.Cancelled? && s.result.error.id == id
  }

  /** The request a threaded run of modify replies ends with. */
  function FinalRequest(request: Request, steps: seq<Step>): Request
    decreases |steps|
  {
    if steps != [] && steps[0].Modified? then FinalRequest(steps[0].request, steps[1..]) else request
  }

  /** The modify loop never sends, never asks a pre-send hook, and delivers only cancellations. */
  lemma {:induction false} ModifyLoopNeverSends(ics: seq<Interceptor>, id: Uuid, request: Request, locked: bool, k: nat)
    requires k <= |ics|
    decreases |ics| - k
    ensures forall s :: s in ModifyLoop(ics, id, request, false, locked, k).steps ==> !s.Sent? && !s.Claimed? && CancelledFor(s, id)
  {
    if k < |ics| && !locked {
      match ics[k].modifyRequest(request)
      case NoReply =>
        ModifyLoopNeverSends(ics, id, request, true, k + 1);
      case Replied(Some(next)) =>
        ModifyLoopNeverSends(ics, id, next, false, k + 1);
      case Replied(None) =>
        var delivered := PostReceive(ics, Failure(Cancelled(request, id)), request);
        assert ModifyLoop(ics, id, request, true, false, k + 1).steps == [];
        assert ModifyLoop(ics, id, request, false, locked, k).steps == [CancelledAt(k)] + delivered;
    }
  }

  /**
   * How often a modify-loop run settles the completion: once when it returned or
   * finished after a cancellation, never when it finished uncancelled or got stuck.
   */
  ghost predicate SettlesRight(run: Run)
  {
    && (run.end.Finished? && !run.end.cancelled ==> Outcomes(run.steps) == 0)
    && (run.end.Finished? && run.end.cancelled ==> Outcomes(run.steps) == 1)
    && (run.end.Returned? ==> Outcomes(run.steps) == 1)
    && (run.end.Stuck? ==> Outcomes(run.steps) == 0)
  }

  /** A silent hook settles nothing: the loop settles as the rest does, run with the semaphore taken. */
  lemma StalledOutcomes(ics: seq<Interceptor>, id: Uuid, request: Request, k: nat)
    requires k < |ics| && ics[k].modifyRequest(request) == NoReply
    requires SettlesRight(ModifyLoop(ics, id, request, false, true, k + 1))
    ensures SettlesRight(ModifyLoop(ics, id, request, false, false, k))
  {
    var rest := ModifyLoop(ics, id, request, false, true, k + 1);
    OutcomesAppend([Stalled(k)], rest.steps);
  }

  /** A forwarding hook settles nothing: the loop settles as the rest does, on the new request. */
  lemma ModifiedOutcomes(ics: seq<Interceptor>, id: Uuid, request: Request, next: Request, k: nat)
    requires k < |ics| && ics[k].modifyRequest(request) == Replied(Some(next))
    requires SettlesRight(ModifyLoop(ics, id, next, false, false, k + 1))
    ensures SettlesRight(ModifyLoop(ics, id, request, false, false, k))
  {
    var rest := ModifyLoop(ics, id, next, false, false, k + 1);
    OutcomesAppend([Modified(k, next)], rest.steps);
  }

  /** A cancelling hook settles the completion once, and the loop then returns or finishes cancelled. */
  lemma CancelledOutcomes(ics: seq<Interceptor>, id: Uuid, request: Request, k: nat)
    requires k < |ics| && ics[k].modifyRequest(request) == Replied(None)
    ensures SettlesRight(ModifyLoop(ics, id, request, false, false, k))
  {
    var delivered := PostReceive(ics, Failure(Cancelled(request, id)), request);
    var rest := ModifyLoop(ics, id, request, true, false, k + 1);
    assert rest.steps == [] && (rest.end.Returned? || (rest.end.Finished? && rest.end.cancelled));
    assert [CancelledAt(k)] + delivered + rest.steps == [CancelledAt(k)] + delivered;
    OutcomesAppend([CancelledAt(k)], delivered);
  }

  /**
   * The modify loop settles the completion once if a hook cancelled, and not at all
   * if every hook continued or stayed silent, or the loop got stuck.
   */
  lemma {:induction false} ModifyLoopOutcomes(ics: seq<Interceptor>, id: Uuid, request: Request, locked: bool, k: nat)
    requires k <= |ics|
    decreases |ics| - k
    ensures SettlesRight(ModifyLoop(ics, id, request, false, locked, k))
  {
    if k < |ics| && !locked {
      match ics[k].modifyRequest(request)
      case NoReply =>
        ModifyLoopOutcomes(ics, id, request, true, k + 1);
        StalledOutcomes(ics, id, request, k);
      case Replied(Some(next)) =>
        ModifyLoopOutcomes(ics, id, next, false, k + 1);
        ModifiedOutcomes(ics, id, request, next, k);
      case Replied(None) =>
        CancelledOutcomes(ics, id, request, k);
    }
  }

  /**
   * A loop that finishes uncancelled heard from every remaining hook, in order, each
   * given the request the previous one produced, except perhaps the last, which may have
   * stayed silent; the last reply, or the request the silent last hook was given, is the
   * request to send.
   */
  lemma {:induction false} ModifyLoopThreads(ics: seq<Interceptor>, id: Uuid, request: Request, locked: bool, k: nat)
    requires k <= |ics|
    decreases |ics| - k
    ensures var run := ModifyLoop(ics, id, request, false, locked, k);
            run.end.Finished? && !run.end.cancelled ==>
              |run.steps| == |ics| - k && Threads(ics, request, run.steps, k)
              && run.end.request == FinalRequest(request, run.steps)
  {
    if k < |ics| && !locked {
      match ics[k].modifyRequest(request)
      case NoReply =>
        var rest := ModifyLoop(ics, id, request, false, true, k + 1);
        assert rest.end.Finished? ==> k + 1 == |ics| && rest.steps == [];
      case Replied(Some(next)) =>
        ModifyLoopThreads(ics, id, next, false, k + 1);
        var rest := ModifyLoop(ics, id, next, false, false, k + 1);
        assert ([Modified(k, next)] + rest.steps)[1..] == rest.steps;
      case Replied(None) =>
    }
  }

  /** When every hook continues, the loop finishes uncancelled. */
  lemma {:induction false} ForwardingLoopFinishes(ics: seq<Interceptor>, id: Uuid, request: Request, k: nat)
    requires k <= |ics|
    requires AllForward(ics, request, k)
    decreases |ics| - k
    ensures ModifyLoop(ics, id, request, false, false, k).end.Finished?
    ensures !ModifyLoop(ics, id, request, false, false, k).end.cancelled
  {
    if k < |ics| {
      ForwardingLoopFinishes(ics, id, ics[k].modifyRequest(request).request.value, k + 1);
    }
  }

  /** The pre-send phase settles the completion at most once, and sends exactly when no hook claims. */
  lemma PreSendFacts(ics: seq<Interceptor>, request: Request, output: TaskOutput)
    ensures var steps := PreSendAndNetwork(ics, request, output);
            && Outcomes(steps) <= 1
            && (Sent(request) in steps <==> FirstClaim(SendAnswers(ics, request)).None?)
            && (forall s :: s in steps && s.Sent? ==> s == Sent(request))
            && (FirstClaim(SendAnswers(ics, request)).None? ==> Outcomes(steps) == 1)
  {
    match FirstClaim(SendAnswers(ics, request))
    case Some(i) =>
      match ics[i].willSend(request).completion {
        case None =>
        case Some(result) => OutcomesAppend([Claimed(i)], PostReceive(ics, result, request));
      }
    case None =>
      OutcomesAppend([Sent(request)], PostReceive(ics, TransformToResult(output), request));
  }

  /**
   * Hooks run in registration order, each on the previous hook's request: when every
   * modify hook continues, the trace starts with one reply per hook in order, and the
   * request that the pre-send hooks and the data task see is the last hook's.
   */
  lemma ForwardingHooksThreadTheRequest(ics: seq<Interceptor>, request: Request, id: Uuid, output: TaskOutput)
    requires AllForward(ics, request, 0)
    ensures var run := ModifyLoop(ics, id, request, false, false, 0);
            && run.end == Finished(FinalRequest(request, run.steps), false)
            && Threads(ics, request, run.steps, 0) && |run.steps| == |ics|
            && SendSpec(ics, false, request, id, output).steps
               == run.steps + PreSendAndNetwork(ics, FinalRequest(request, run.steps), output)
  {
    ForwardingLoopFinishes(ics, id, request, 0);
    ModifyLoopThreads(ics, id, request, false, 0);
  }

  /**
   * A cancellation by any modify hook but the last ends the operation: no later modify
   * hook, no pre-send hook and no data task run, and the completion is settled once,
   * with the cancellation.
   */
  lemma EarlyCancelStopsPipeline(ics: seq<Interceptor>, locked: bool, request: Request, id: Uuid, output: TaskOutput)
    requires ModifyLoop(ics, id, request, false, locked, 0).end.Returned?
    ensures var steps := SendSpec(ics, locked, request, id, output).steps;
            && steps == ModifyLoop(ics, id, request, false, locked, 0).steps
            && (forall s :: s in steps ==> !s.Sent? && !s.Claimed? && CancelledFor(s, id))
            && Outcomes(steps) == 1
  {
    ModifyLoopNeverSends(ics, id, request, locked, 0);
    ModifyLoopOutcomes(ics, id, request, locked, 0);
  }

  /** A pre-send claim means no data task: nothing is ever sent. */
  lemma PreSendClaimSkipsNetwork(ics: seq<Interceptor>, locked: bool, request: Request, id: Uuid, output: TaskOutput)
    requires ModifyLoop(ics, id, request, false, locked, 0).end.Finished?
    requires FirstClaim(SendAnswers(ics, ModifyLoop(ics, id, request, false, locked, 0).end.request)).Some?
    ensures forall s :: s in SendSpec(ics, locked, request, id, output).steps ==> !s.Sent?
  {
    var run := ModifyLoop(ics, id, request, false, locked, 0);
    ModifyLoopNeverSends(ics, id, request, locked, 0);
    PreSendFacts(ics, run.end.request, output);
  }

  /**
   * With no cancellation and no pre-send claim, the request is sent once and the
   * completion is settled exactly once.
   */
  lemma UnclaimedRequestSettlesOnce(ics: seq<Interceptor>, locked: bool, request: Request, id: Uuid, output: TaskOutput)
    requires ModifyLoop(ics, id, request, false, locked, 0).end.Finished?
    requires !ModifyLoop(ics, id, request, false, locked, 0).end.cancelled
    requires FirstClaim(SendAnswers(ics, ModifyLoop(ics, id, request, false, locked, 0).end.request)).None?
    ensures var steps := SendSpec(ics, locked, request, id, output).steps;
            Sent(ModifyLoop(ics, id, request, false, locked, 0).end.request) in steps && Outcomes(steps) == 1
  {
    var run := ModifyLoop(ics, id, request, false, locked, 0);
    ModifyLoopOutcomes(ics, id, request, locked, 0);
    PreSendFacts(ics, run.end.request, output);
    OutcomesAppend(run.steps, PreSendAndNetwork(ics, run.end.request, output));
  }

  /**
   * As written, a cancellation by the last modify hook is delivered and then the
   * request goes on to the pre-send hooks and the data task, so the completion is
   * settled twice.
   */
  lemma LateCancelSettlesTwice(ics: seq<Interceptor>, locked: bool, request: Request, id: Uuid, output: TaskOutput)
    requires ModifyLoop(ics, id, request, false, locked, 0).end.Finished?
    requires ModifyLoop(ics, id, request, false, locked, 0).end.cancelled
    requires FirstClaim(SendAnswers(ics, ModifyLoop(ics, id, request, false, locked, 0).end.request)).None?
    ensures var steps := SendSpec(ics, locked, request, id, output).steps;
            Sent(ModifyLoop(ics, id, request, false, locked, 0).end.request) in steps && Outcomes(steps) == 2
  {
    var run := ModifyLoop(ics, id, request, false, locked, 0);
    ModifyLoopOutcomes(ics, id, request, locked, 0);
    PreSendFacts(ics, run.end.request, output);
    OutcomesAppend(run.steps, PreSendAndNetwork(ics, run.end.request, output));
  }

  function CancelEverything(request: Request): ModifyReply {
    Replied(None)
  }

  /**
   * The smallest case: a single interceptor that cancels. Its caller first gets the
   * cancellation, then the request is sent anyway and the reply is delivered too.
   */
  lemma LateCancelExample(request: Request, id: Uuid, output: TaskOutput)
    ensures SendSpec([Interceptor(CancelEverything, DefaultWillSend, DefaultDidReceive)], false, request, id, output).steps
            == [CancelledAt(0), Delivered(Failure(Cancelled(request, id))), Sent(request),
                Delivered(StatusChecked(TransformToResult(output)))]
  {
    var ics := [Interceptor(CancelEverything, DefaultWillSend, DefaultDidReceive)];
    assert ics[0].modifyRequest(request) == Replied(None);
    assert ics[0].willSend(request) == DefaultWillSend(request) == Pass;
    assert SendAnswers(ics, request)[0] == ics[0].willSend(request).Claim?;
    assert ics[0].didReceive(Failure(Cancelled(request, id)), request) == DefaultDidReceive(Failure(Cancelled(request, id)), request);
    assert ReceiveAnswers(ics, Failure(Cancelled(request, id)), request)[0] == ics[0].didReceive(Failure(Cancelled(request, id)), request);
    assert ReceiveAnswers(ics, TransformToResult(output), request)[0] == ics[0].didReceive(TransformToResult(output), request);
    assert FirstClaim(SendAnswers(ics, request)).None?;
    assert FirstClaim(ReceiveAnswers(ics, Failure(Cancelled(request, id)), request)).None?;
    assert FirstClaim(ReceiveAnswers(ics, TransformToResult(output), request)).None?;
    var cancelled := PostReceive(ics, Failure(Cancelled(request, id)), request);
    assert cancelled == [Delivered(Failure(Cancelled(request, id)))];
    assert ModifyLoop(ics, id, request, true, false, 1) == Run([], Finished(request, true), false);
    assert ModifyLoop(ics, id, request, false, false, 0).steps == [CancelledAt(0)] + cancelled + [];
    assert PreSendAndNetwork(ics, request, output)
           == [Sent(request), Delivered(StatusChecked(TransformToResult(output)))];
  }

  /**
   * With the cancellation also checked after the loop, every operation settles the
   * completion at most once, exactly once unless it gets stuck or a pre-send hook
   * takes the completion and never calls it, and it differs from the code as written
   * only when the last hook cancels.
   */
  lemma CorrectedSettlesAtMostOnce(ics: seq<Interceptor>, locked: bool, request: Request, id: Uuid, output: TaskOutput)
    ensures Outcomes(SendSpecCorrected(ics, locked, request, id, output).steps) <= 1
    ensures var run := ModifyLoop(ics, id, request, false, locked, 0);
            (run.end.Returned? || (run.end.Finished? && run.end.cancelled)) ==>
              Outcomes(SendSpecCorrected(ics, locked, request, id, output).steps) == 1
              && forall s :: s in SendSpecCorrected(ics, locked, request, id, output).steps ==> !s.Sent?
    ensures var run := ModifyLoop(ics, id, request, false, locked, 0);
            !(run.end.Finished? && run.end.cancelled) ==>
              SendSpecCorrected(ics, locked, request, id, output) == SendSpec(ics, locked, request, id, output)
  {
    var run := ModifyLoop(ics, id, request, false, locked, 0);
    ModifyLoopNeverSends(ics, id, request, locked, 0);
    ModifyLoopOutcomes(ics, id, request, locked, 0);
    if run.end.Finished? && !run.end.cancelled {
      PreSendFacts(ics, run.end.request, output);
      OutcomesAppend(run.steps, PreSendAndNetwork(ics, run.end.request, output));
    }
  }

  /** An interceptor that overrides nothing passes the request on unchanged, once, and claims nothing. */
  lemma DefaultsAreTransparent(request: Request, id: Uuid, output: TaskOutput)
    ensures SendSpec([Defaults], false, request, id, output).steps
            == [Modified(0, request), Sent(request), Delivered(StatusChecked(TransformToResult(output)))]
    ensures SendSpec([Defaults], false, request, id, output).steps[1..]
            == SendSpec([], false, request, id, output).steps
  {
    var ics := [Defaults];
    assert ics[0].modifyRequest(request) == Replied(Some(request));
    assert SendAnswers(ics, request)[0] == ics[0].willSend(request).Claim?;
    assert ReceiveAnswers(ics, TransformToResult(output), request)[0] == ics[0].didReceive(TransformToResult(output), request);
    assert FirstClaim(SendAnswers(ics, request)).None?;
    assert FirstClaim(ReceiveAnswers(ics, TransformToResult(output), request)).None?;
    assert FirstClaim(SendAnswers([], request)).None?;
    assert ModifyLoop(ics, id, request, false, false, 1) == Run([], Finished(request, false), false);
    assert ModifyLoop(ics, id, request, false, false, 0).steps == [Modified(0, request)] + [];
    assert PreSendAndNetwork(ics, request, output)
           == [Sent(request), Delivered(StatusChecked(TransformToResult(output)))];
  }

  /**
   * A last modify hook that never calls `onNewRequest` does not stop its own request:
   * nothing waits after the last hook, so the request it was given goes on to the
   * pre-send hooks and, unless one claims, is sent. But the hook keeps the Api's
   * semaphore, so every later request on the same Api waits forever.
   */
  method StalledHookBlocksLaterSends(interceptor: Interceptor, request: Request, later: Request, id: Uuid, output: TaskOutput)
    returns (first: seq<Step>, second: seq<Step>)
    requires interceptor.modifyRequest(request) == NoReply
    ensures first == [Stalled(0)] + PreSendAndNetwork([interceptor], request, output)
    ensures !interceptor.willSend(request).Claim? ==> Sent(request) in first && Outcomes(first) == 1
    ensures second == [Blocked]
  {
    var ics := [interceptor];
    assert ModifyLoop(ics, id, request, false, true, 1) == Run([], Finished(request, false), true);
    assert ModifyLoop(ics, id, request, false, false, 0) == Run([Stalled(0)] + [], Finished(request, false), true);
    var api := new Api(ics);
    first := api.Send(request, id, output);
    assert api.locked;
    second := api.Send(later, id, output);
    if !interceptor.willSend(request).Claim? {
      assert SendAnswers([interceptor], request)[0] == interceptor.willSend(request).Claim?;
      PreSendFacts([interceptor], request, output);
      OutcomesAppend([Stalled(0)], PreSendAndNetwork([interceptor], request, output));
    }
  }

  /**
   * A hook that stays silent before the last one leaves the semaphore taken when the
   * next hook waits: the loop ends stuck, its last step that wait.
   */
  lemma {:induction false} ModifyLoopSilentBlocks(ics: seq<Interceptor>, id: Uuid, request: Request, locked: bool, k: nat)
    requires k <= |ics|
    decreases |ics| - k
    ensures var run := ModifyLoop(ics, id, request, false, locked, k);
            forall j: nat :: Stalled(j) in run.steps && j + 1 < |ics| ==>
              run.end.Stuck? && run.steps != [] && run.steps[|run.steps| - 1] == Blocked
  {
    if k < |ics| && !locked {
      var run := ModifyLoop(ics, id, request, false, locked, k);
      match ics[k].modifyRequest(request)
      case NoReply =>
        var rest := ModifyLoop(ics, id, request, false, true, k + 1);
        assert run.steps == [Stalled(k)] + rest.steps;
        if k + 1 < |ics| {
          assert rest == Run([Blocked], Stuck, true);
        } else {
          assert run.steps == [Stalled(k)];
        }
      case Replied(Some(next)) =>
        var rest := ModifyLoop(ics, id, next, false, false, k + 1);
        ModifyLoopSilentBlocks(ics, id, next, false, k + 1);
        assert run == Run([Modified(k, next)] + rest.steps, rest.end, rest.locked);
      case Replied(None) =>
        var delivered := PostReceive(ics, Failure(Cancelled(request, id)), request);
        assert ModifyLoop(ics, id, request, true, false, k + 1).steps == [];
        assert run.steps == [CancelledAt(k)] + delivered;
        assert forall s :: s in run.steps ==> !s.Stalled?;
    }
  }

  /**
   * The operation as a whole: a silent modify hook before the last one stops it, with
   * nothing sent and the completion never settled.
   */
  lemma SilentHookBeforeLastStopsSend(ics: seq<Interceptor>, locked: bool, request: Request, id: Uuid, output: TaskOutput)
    ensures var run := ModifyLoop(ics, id, request, false, locked, 0);
            forall j: nat :: Stalled(j) in run.steps && j + 1 < |ics| ==>
              SendSpec(ics, locked, request, id, output) == run
              && (forall s :: s in run.steps ==> !s.Sent?)
              && Outcomes(run.steps) == 0
  {
    ModifyLoopSilentBlocks(ics, id, request, locked, 0);
    ModifyLoopNeverSends(ics, id, request, locked, 0);
    ModifyLoopOutcomes(ics, id, request, locked, 0);
  }
}
