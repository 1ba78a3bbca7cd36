/**
 * The admission gates of the older Temporal platform worker. Workflows and
 * activities both read the routing key from their baggage ("" when it is
 * missing) and ask the router; a rejected task fails with a non-retryable
 * application error and is never handed on.
 */
module PlatformInterceptors {
  import opened Wire
  import opened Tasks
  import opened PlatformRouteServer

  /** The error a rejected task fails with: not retried by Temporal. */
  const Rejection := ApplicationError("routing key rejected", true)

  /** The workflow gate in front of `next`. */
  function ExecuteWorkflow<I, R>(router: RouteServerClient, baggage: map<string, string>,
                                 input: I, next: I -> R): (o: GateOutcome<R>)
    reads router
    ensures o.Delegated? <==> router.ShouldProcess(BaggageRoutingKey(baggage))
    ensures o.Delegated? ==> o.result == next(input)
    ensures o.Raised? ==> o.error == ApplicationError("routing key rejected", true)
  {
    var routingKey := BaggageRoutingKey(baggage);
    if !router.ShouldProcess(routingKey) then Raised(Rejection)
    else Delegated(next(input))
  }

  /** The activity gate in front of `next`. */
  function ExecuteActivity<I, R>(router: RouteServerClient, baggage: map<string, string>,
                                 input: I, next: I -> R): (o: GateOutcome<R>)
    reads router
    ensures o.Delegated? <==> router.ShouldProcess(BaggageRoutingKey(baggage))
    ensures o.Delegated? ==> o.result == next(input)
    ensures o.Raised? ==> o.error == ApplicationError("routing key rejected", true)
  {
    var routingKey := BaggageRoutingKey(baggage);
    if !router.ShouldProcess(routingKey) then Raised(Rejection)
    else Delegated(next(input))
  }

  /**
   * A workflow and an activity carrying the same baggage are admitted or
   * rejected together, and a rejection never calls `next`.
   */
  lemma GatesAgree<I, R>(router: RouteServerClient, baggage: map<string, string>,
                         wfInput: I, wfNext: I -> R, actInput: I, actNext: I -> R)
    ensures ExecuteWorkflow(router, baggage, wfInput, wfNext).Delegated?
      == ExecuteActivity(router, baggage, actInput, actNext).Delegated?
  {
  }

  /**
   * A task without a routing key in its baggage goes to the baseline
   * unless "" is itself a pulled key, and to a sandbox only if it is.
   */
  lemma MissingKeyActsAsEmptyKey<I, R>(router: RouteServerClient, baggage: map<string, string>,
                                       input: I, next: I -> R)
    requires RoutingKeyName !in baggage
    ensures ExecuteWorkflow(router, baggage, input, next).Delegated? <==>
      if router.sandboxName == "" then JStr("") !in router.routingKeys else JStr("") in router.routingKeys
  {
  }

  /**
   * As written, a sandbox worker, whose pulled keys stay empty, fails every
   * workflow it is offered, while the baseline runs every one.
   */
  lemma AsWrittenSandboxRejectsAll<I, R>(router: RouteServerClient, baggage: map<string, string>,
                                         input: I, next: I -> R)
    requires router.routingKeys == {}
    ensures router.sandboxName != "" ==> ExecuteWorkflow(router, baggage, input, next) == Raised(Rejection)
    ensures router.sandboxName == "" ==> ExecuteWorkflow(router, baggage, input, next) == Delegated(next(input))
  {
  }
}
