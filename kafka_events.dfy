/**
 * The event log of the Kafka demo. Events are built without a routing
 * key. Collecting continues a scan by calling itself, and every call
 * starts with empty accumulators, so a completed collection reports only
 * what the last batch held.
 */
module KafkaEvents {
  import opened Wire
  import opened RedisEvents

  /** The event for a message handled at time `now`; its routing key is left empty. */
  function ConstructEvent(config: Config, now: int, logEntry: string, message: Json): Event {
    Event(now, logEntry,
          EventContext(Workload(config.baselineNamespace, config.baselineName), "",
                       config.sandboxName, message))
  }

  /**
   * Storing a constructed event: the record written carries the event under
   * its id, and its routing key is empty whatever the message was routed by.
   */
  lemma StoredEventsHaveNoRoutingKey(config: Config, now: int, logEntry: string, message: Json,
                                     id: nat, setexOk: bool)
    ensures var w := StoreEvent(ConstructEvent(config, now, logEntry, message), Some(id), setexOk).0;
      && w.Some? && w.value.key == EventKey(id) && w.value.value.id == id
      && w.value.value.body.context.routingKey == ""
      && w.value.value.body.context.sandboxName == config.sandboxName
      && w.value.value.body.timestamp == now
  {
  }

  /**
   * What a completed call reports: the kept events of its own batch in scan
   * order and their largest id. The sort compares JSON strings by
   * subtraction, which is NaN for every pair and counts as "equal", so the
   * stable sort leaves the order as it is.
   */
  function Report(kept: seq<StoredEvent>): Collection {
    Done(Bodies(kept), MaxId(kept, 0))
  }

  /**
   * The collection over `replies`: a failed SCAN or MGET reports its
   * error, a value that cannot be read throws, a batch with a cursor other
   * than "0" hands over to a fresh call, and the batch with cursor "0"
   * reports what it holds.
   */
  function Collect(eventsCursor: Option<int>, replies: seq<ScanReply>): Collection
    decreases |replies|
  {
    if replies == [] then Pending
    else
      match StepOf(replies[0])
      case StepFailed(message) => Failed(message)
      case StepThrew => Threw
      case StepOk(newCursor, batch) =>
        if newCursor != "0" then Collect(eventsCursor, replies[1..])
        else Report(Kept(batch, eventsCursor))
  }

  /** A batch that continues the scan has no bearing on the result: its events are dropped. */
  lemma ContinuedBatchIsDropped(eventsCursor: Option<int>, first: ScanReply, rest: seq<ScanReply>)
    requires Continues(StepOf(first))
    ensures Collect(eventsCursor, [first] + rest) == Collect(eventsCursor, rest)
  {
    assert ([first] + rest)[0] == first && ([first] + rest)[1..] == rest;
  }

  /**
   * Reply `j` returned cursor "0" after every reply before it continued the
   * scan, and the collection reports the kept events of its batch, in scan
   * order, and their largest id.
   */
  predicate EndsWith(eventsCursor: Option<int>, replies: seq<ScanReply>, j: int) {
    && 0 <= j < |replies| && StepOf(replies[j]).StepOk? && StepOf(replies[j]).newCursor == "0"
    && (forall k :: 0 <= k < j ==> Continues(StepOf(replies[k])))
    && Collect(eventsCursor, replies) == Report(Kept(StepOf(replies[j]).batch, eventsCursor))
  }

  lemma EndsWithLater(eventsCursor: Option<int>, replies: seq<ScanReply>, j: int)
    requires replies != [] && Continues(StepOf(replies[0]))
    requires EndsWith(eventsCursor, replies[1..], j)
    ensures EndsWith(eventsCursor, replies, j + 1)
  {
    assert replies[1..][j] == replies[j + 1];
    assert forall k :: 1 <= k < j + 1 ==> replies[k] == replies[1..][k - 1];
  }

  /** A completed collection reports the batch that returned cursor "0", and only it. */
  lemma {:induction false} CompletedCollectionIsLastBatch(eventsCursor: Option<int>, replies: seq<ScanReply>)
    requires Collect(eventsCursor, replies).Done?
    ensures exists j :: EndsWith(eventsCursor, replies, j)
    decreases |replies|
  {
    if Continues(StepOf(replies[0])) {
      CompletedCollectionIsLastBatch(eventsCursor, replies[1..]);
      var j :| EndsWith(eventsCursor, replies[1..], j);
      EndsWithLater(eventsCursor, replies, j);
    } else {
      assert EndsWith(eventsCursor, replies, 0);
    }
  }

  /** The collection and the requests, one reply at a time. */
  lemma FirstReply(eventsCursor: Option<int>, cursor: string, replies: seq<ScanReply>,
                   pattern: string, count: int)
    requires replies != []
    ensures StepOf(replies[0]).StepFailed? ==> Collect(eventsCursor, replies) == Failed(StepOf(replies[0]).message)
    ensures StepOf(replies[0]).StepThrew? ==> Collect(eventsCursor, replies) == Threw
    ensures StepOf(replies[0]).StepOk? ==>
      Collect(eventsCursor, replies) ==
        if StepOf(replies[0]).newCursor != "0" then Collect(eventsCursor, replies[1..])
        else Report(Kept(StepOf(replies[0]).batch, eventsCursor))
    ensures ScanTrace(cursor, pattern, count, replies) ==
      if Continues(StepOf(replies[0]))
      then [ScanRequest(cursor, pattern, count)] + ScanTrace(StepOf(replies[0]).newCursor, ScanMatch, ScanCount, replies[1..])
      else [ScanRequest(cursor, pattern, count)]
  {
  }

  /**
   * getEvents: one SCAN from `cursor` with `pattern` and `count`; the batch
   * is read into accumulators of this call; a cursor other than "0" hands
   * over to a new call, which scans with the default pattern and count;
   * cursor "0" reports this call's events and largest id. Returns how the
   * collection ends and the SCAN requests issued.
   */
  method GetEvents(eventsCursor: Option<int>, cursor: string, replies: seq<ScanReply>,
                   pattern: string, count: int)
    returns (outcome: Collection, requests: seq<ScanRequest>)
    decreases |replies|
    ensures outcome == Collect(eventsCursor, replies)
    ensures requests == ScanTrace(cursor, pattern, count, replies)
  {
    var events: seq<Event> := [];
    var lastEventID := 0;
    requests := [ScanRequest(cursor, pattern, count)];
    if replies == [] {
      return Pending, requests;
    }
    FirstReply(eventsCursor, cursor, replies, pattern, count);
    var end;
    end, events, lastEventID := ScanCallback(eventsCursor, replies[0], events, lastEventID);
    match end {
      case Ended(failure) =>
        return failure, requests;
      case Read(newCursor) =>
        if newCursor != "0" {
          var later;
          outcome, later := GetEvents(eventsCursor, newCursor, replies[1..], ScanMatch, ScanCount);
          return outcome, requests + later;
        }
        // the sort leaves the order unchanged (see Report)
        assert events == Bodies(Kept(StepOf(replies[0]).batch, eventsCursor));
        return Done(events, lastEventID), requests;
    }
  }
}
