/**
 * What the admission gates of both Temporal workers share: the baggage
 * entry that carries the routing key, and the outcome of a gate, which
 * either hands the task to the next interceptor or raises.
 */
module Tasks {

  /** The baggage entry name under which a task's routing key travels. */
  const RoutingKeyName := "sd-routing-key"

  /**
   * The routing key of a workflow or activity task read from its baggage:
   * `baggage.get_baggage("sd-routing-key") or ""`. A missing entry gives
   * the empty string, never an absent key.
   */
  function BaggageRoutingKey(baggage: map<string, string>): (key: string)
    ensures RoutingKeyName in baggage ==> key == baggage[RoutingKeyName]
    ensures RoutingKeyName !in baggage ==> key == ""
  {
    if RoutingKeyName in baggage && baggage[RoutingKeyName] != "" then baggage[RoutingKeyName] else ""
  }

  /** The exceptions a gate raises to refuse a task. */
  datatype TaskError =
    | PlainException(message: string)
    | ApplicationError(message: string, nonRetryable: bool)

  /**
   * A gate either delegated to the next interceptor, whose result it
   * returns unchanged, or raised without calling it.
   */
  datatype GateOutcome<R> = Delegated(result: R) | Raised(error: TaskError)
}
