/**
 * The event log of the Pub/Sub demo. A consumed or published message is
 * recorded as an event carrying its routing key; the frontend collects the
 * events newer than a cursor, keeping the events and the largest id of
 * every scan batch in accumulators shared by the whole collection, and
 * sorts them by timestamp once the scan is complete.
 */
module PubSubEvents {
  import opened Wire
  import opened RedisEvents
  import opened Text

  /** The event for a message handled at time `now` under `routingKey`. */
  function ConstructEvent(config: Config, now: int, logEntry: string, message: Json, routingKey: string): Event {
    Event(now, logEntry,
          EventContext(Workload(config.baselineNamespace, config.baselineName), routingKey,
                       config.sandboxName, message))
  }

  /**
   * Recording a message: its event is built and stored. The stored record
   * carries the message's routing key and the workload's sandbox, so the
   * frontend can tell which workload handled which message.
   */
  function RegisterEvent(config: Config, now: int, logEntry: string, message: Json, routingKey: string,
                         incr: Option<nat>, setexOk: bool): (r: (Option<Setex>, Completion))
    ensures incr.None? ==> r == (None, FailedWith("couldn't generate event ID"))
    ensures incr.Some? ==> r.0.Some? && r.0.value.key == EventKey(incr.value) && r.0.value.ttlSeconds == 30
    ensures incr.Some? ==> var body := r.0.value.value.body;
      && r.0.value.value.id == incr.value
      && body.timestamp == now && body.logEntry == logEntry
      && body.context.routingKey == routingKey && body.context.sandboxName == config.sandboxName
      && body.context.message == message
    ensures incr.Some? ==> (r.1.Succeeded? <==> setexOk)
  {
    StoreEvent(ConstructEvent(config, now, logEntry, message, routingKey), incr, setexOk)
  }

  /** The result once the scan is complete: the kept events sorted, and their largest id. */
  function Finish(kept: seq<StoredEvent>): Collection {
    Done(SortByTimestamp(Bodies(kept)), MaxId(kept, 0))
  }

  /**
   * The collection over `replies` after the batches holding `scanned` were
   * read: a failed SCAN or MGET reports its error, a value that cannot be
   * read throws, a batch with a cursor other than "0" continues with the
   * next reply, and the batch with cursor "0" completes it.
   */
  function Collect(eventsCursor: Option<int>, replies: seq<ScanReply>, scanned: seq<StoredEvent>): Collection
    decreases |replies|
  {
    if replies == [] then Pending
    else
      match StepOf(replies[0])
      case StepFailed(message) => Failed(message)
      case StepThrew => Threw
      case StepOk(newCursor, batch) =>
        if newCursor != "0" then Collect(eventsCursor, replies[1..], scanned + batch)
        else Finish(Kept(scanned + batch, eventsCursor))
  }

  /** Collecting one more batch extends the kept events and raises the maximum accordingly. */
  lemma CollectedBatch(scanned: seq<StoredEvent>, batch: seq<StoredEvent>, eventsCursor: Option<int>)
    ensures Bodies(Kept(scanned + batch, eventsCursor)) ==
      Bodies(Kept(scanned, eventsCursor)) + Bodies(Kept(batch, eventsCursor))
    ensures MaxId(Kept(scanned + batch, eventsCursor), 0) ==
      MaxId(Kept(batch, eventsCursor), MaxId(Kept(scanned, eventsCursor), 0))
  {
    KeptAppend(scanned, batch, eventsCursor);
    BodiesAppend(Kept(scanned, eventsCursor), Kept(batch, eventsCursor));
    MaxIdAppend(Kept(scanned, eventsCursor), Kept(batch, eventsCursor), 0);
  }

  /** One step of the collection. */
  lemma CollectStep(eventsCursor: Option<int>, replies: seq<ScanReply>, scanned: seq<StoredEvent>)
    requires replies != []
    ensures Continues(StepOf(replies[0])) ==>
      (Collect(eventsCursor, replies, scanned) ==
      Collect(eventsCursor, replies[1..], scanned + StepOf(replies[0]).batch))
    ensures StepOf(replies[0]).StepOk? && !Continues(StepOf(replies[0])) ==>
      (Collect(eventsCursor, replies, scanned) == Finish(Kept(scanned + StepOf(replies[0]).batch, eventsCursor)))
    ensures StepOf(replies[0]).StepFailed? ==> Collect(eventsCursor, replies, scanned) == Failed(StepOf(replies[0]).message)
    ensures StepOf(replies[0]).StepThrew? ==> Collect(eventsCursor, replies, scanned) == Threw
  {
  }

  /** The records of the batches read, up to and including the one that completes the scan. */
  function Read(replies: seq<ScanReply>): seq<StoredEvent>
    decreases |replies|
  {
    if replies == [] then []
    else
      match StepOf(replies[0])
      case StepOk(newCursor, batch) => batch + if newCursor != "0" then Read(replies[1..]) else []
      case _ => []
  }

  /** A completed collection is the result over every batch read, earlier ones included. */
  lemma {:induction false} CollectReadsEveryBatch(eventsCursor: Option<int>, replies: seq<ScanReply>,
                                                  scanned: seq<StoredEvent>)
    requires Collect(eventsCursor, replies, scanned).Done?
    ensures Collect(eventsCursor, replies, scanned) == Finish(Kept(scanned + Read(replies), eventsCursor))
    decreases |replies|
  {
    CollectStep(eventsCursor, replies, scanned);
    ReadStep(replies);
    var step := StepOf(replies[0]);
    if Continues(step) {
      CollectReadsEveryBatch(eventsCursor, replies[1..], scanned + step.batch);
      AppendAssociates(scanned, step.batch, Read(replies[1..]));
    }
  }

  /** The records read from a successful batch: its own, then the later ones' if it continues. */
  lemma ReadStep(replies: seq<ScanReply>)
    requires replies != [] && StepOf(replies[0]).StepOk?
    ensures Continues(StepOf(replies[0])) ==> Read(replies) == StepOf(replies[0]).batch + Read(replies[1..])
    ensures !Continues(StepOf(replies[0])) ==> Read(replies) == StepOf(replies[0]).batch
  {
    assert StepOf(replies[0]).batch + [] == StepOf(replies[0]).batch;
  }

  /**
   * What a completed collection reports: every event newer than the cursor
   * from every batch read, and only those, sorted by timestamp (ties in scan
   * order); and the largest id among them, or 0.
   */
  lemma CompletedCollection(eventsCursor: Option<int>, replies: seq<ScanReply>)
    requires Collect(eventsCursor, replies, []).Done?
    ensures var r, read := Collect(eventsCursor, replies, []), Read(replies);
      && SortedByTimestamp(r.events)
      && multiset(r.events) == multiset(Bodies(Kept(read, eventsCursor)))
      && (forall x :: x in read && After(x.id, eventsCursor) ==> x.body in r.events)
      && (forall e :: e in r.events ==> exists x :: x in read && After(x.id, eventsCursor) && x.body == e)
    ensures var r, read := Collect(eventsCursor, replies, []), Read(replies);
      && r.lastEventID >= 0
      && (forall x :: x in read && After(x.id, eventsCursor) ==> x.id <= r.lastEventID)
      && (r.lastEventID == 0 || exists x :: x in read && After(x.id, eventsCursor) && x.id == r.lastEventID)
  {
    var read := Read(replies);
    CollectReadsEveryBatch(eventsCursor, replies, []);
    assert [] + read == read;
    var bodies := Bodies(Kept(read, eventsCursor));
    SortByTimestampIsStableSort(bodies);
    NewerEvents(read, eventsCursor);
    forall e | e in SortByTimestamp(bodies)
      ensures e in bodies
    {
      assert e in multiset(SortByTimestamp(bodies));
    }
    forall e | e in bodies
      ensures e in SortByTimestamp(bodies)
    {
      assert e in multiset(bodies);
    }
  }

  /**
   * An event newer than the cursor in a batch that continues the scan is
   * still reported when a later batch completes it.
   */
  lemma EarlierBatchCounts(eventsCursor: Option<int>, first: ScanReply, rest: seq<ScanReply>, x: StoredEvent)
    requires Continues(StepOf(first)) && x in StepOf(first).batch && After(x.id, eventsCursor)
    requires Collect(eventsCursor, [first] + rest, []).Done?
    ensures x.body in Collect(eventsCursor, [first] + rest, []).events
    ensures x.id <= Collect(eventsCursor, [first] + rest, []).lastEventID
  {
    var replies := [first] + rest;
    assert replies[0] == first;
    assert x in Read(replies);
    CompletedCollection(eventsCursor, replies);
  }

  /** A batch that continues the scan: the collection and the requests go on from the next reply. */
  lemma Advance(eventsCursor: Option<int>, cursor: string, replies: seq<ScanReply>, i: nat,
                scanned: seq<StoredEvent>, current: string, issued: seq<ScanRequest>)
    requires i < |replies| && Continues(StepOf(replies[i]))
    requires Collect(eventsCursor, replies[i..], scanned) == Collect(eventsCursor, replies, [])
    requires issued + ScanTrace(current, ScanMatch, ScanCount, replies[i..]) == ScanTrace(cursor, ScanMatch, ScanCount, replies)
    ensures Collect(eventsCursor, replies[i + 1..], scanned + StepOf(replies[i]).batch) == Collect(eventsCursor, replies, [])
    ensures issued + [ScanRequest(current, ScanMatch, ScanCount)]
      + ScanTrace(StepOf(replies[i]).newCursor, ScanMatch, ScanCount, replies[i + 1..])
      == ScanTrace(cursor, ScanMatch, ScanCount, replies)
  {
    assert replies[i..][0] == replies[i] && replies[i..][1..] == replies[i + 1..];
    ScanTraceStep(current, ScanMatch, ScanCount, replies[i..]);
    CollectStep(eventsCursor, replies[i..], scanned);
  }

  /** A batch that ends the call: its outcome is the collection's, and no request follows. */
  lemma Stop(eventsCursor: Option<int>, cursor: string, replies: seq<ScanReply>, i: nat,
             scanned: seq<StoredEvent>, current: string, issued: seq<ScanRequest>)
    requires i < |replies| && !Continues(StepOf(replies[i]))
    requires Collect(eventsCursor, replies[i..], scanned) == Collect(eventsCursor, replies, [])
    requires issued + ScanTrace(current, ScanMatch, ScanCount, replies[i..]) == ScanTrace(cursor, ScanMatch, ScanCount, replies)
    ensures StepOf(replies[i]).StepOk? ==>
      Collect(eventsCursor, replies, []) == Finish(Kept(scanned + StepOf(replies[i]).batch, eventsCursor))
    ensures StepOf(replies[i]).StepFailed? ==> Collect(eventsCursor, replies, []) == Failed(StepOf(replies[i]).message)
    ensures StepOf(replies[i]).StepThrew? ==> Collect(eventsCursor, replies, []) == Threw
    ensures issued + [ScanRequest(current, ScanMatch, ScanCount)] == ScanTrace(cursor, ScanMatch, ScanCount, replies)
  {
    assert replies[i..][0] == replies[i];
    ScanTraceStep(current, ScanMatch, ScanCount, replies[i..]);
    CollectStep(eventsCursor, replies[i..], scanned);
  }

  /**
   * getEvents: scans from `cursor` against the replies, reads each
   * non-empty batch, adds the records newer than the cursor to the shared
   * accumulators, and once a batch returns cursor "0" sorts the events and
   * reports them with the largest id. Returns how the call ends and the
   * SCAN requests it issued.
   */
  method GetEvents(eventsCursor: Option<int>, cursor: string, replies: seq<ScanReply>)
    returns (outcome: Collection, requests: seq<ScanRequest>)
    ensures outcome == Collect(eventsCursor, replies, [])
    ensures requests == ScanTrace(cursor, ScanMatch, ScanCount, replies)
  {
    var events: seq<Event> := [];
    var lastEventID := 0;
    ghost var scanned: seq<StoredEvent> := [];
    ghost var issued: seq<ScanRequest> := [];
    var current := cursor;
    requests := [ScanRequest(current, ScanMatch, ScanCount)];
    var i := 0;
    while i < |replies|
      invariant i <= |replies|
      invariant events == Bodies(Kept(scanned, eventsCursor))
      invariant lastEventID == MaxId(Kept(scanned, eventsCursor), 0)
      invariant Collect(eventsCursor, replies[i..], scanned) == Collect(eventsCursor, replies, [])
      invariant requests == issued + [ScanRequest(current, ScanMatch, ScanCount)]
      invariant issued + ScanTrace(current, ScanMatch, ScanCount, replies[i..])
        == ScanTrace(cursor, ScanMatch, ScanCount, replies)
    {
      var end;
      end, events, lastEventID := ScanCallback(eventsCursor, replies[i], events, lastEventID);
      match end {
        case Ended(failure) =>
          Stop(eventsCursor, cursor, replies, i, scanned, current, issued);
          return failure, requests;
        case Read(newCursor) =>
          CollectedBatch(scanned, StepOf(replies[i]).batch, eventsCursor);
          // checkResults
          if newCursor != "0" {
            Advance(eventsCursor, cursor, replies, i, scanned, current, issued);
            scanned := scanned + StepOf(replies[i]).batch;
            issued := requests;
            current := newCursor;
            requests := requests + [ScanRequest(current, ScanMatch, ScanCount)];
            i := i + 1;
          } else {
            Stop(eventsCursor, cursor, replies, i, scanned, current, issued);
            events := SortByTimestamp(events);
            return Done(events, lastEventID), requests;
          }
      }
    }
    outcome := Pending;
  }
}
