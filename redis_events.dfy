/**
 * The event log both message demos keep in Redis: each consumed message is
 * stored as an event under "event-<id>" with a 30-second expiry, and the
 * frontend collects the events newer than a cursor by scanning those keys
 * in batches. What the two collectors share is here: the records, one
 * batch's SCAN/MGET outcome, the cursor filter, the running maximum id and
 * the order by timestamp.
 */
module RedisEvents {
  import opened Wire
  import opened Text

  const EventKeyPrefix := "event-"
  const EventTtlSeconds := 30
  /** The pattern and batch size of every scan the collectors issue by default. */
  const ScanMatch := "event-*"
  const ScanCount := 10

  // ---------------------------------------------------------------------
  // Events and storing them
  // ---------------------------------------------------------------------

  /** The workload's configuration, read from its environment. */
  datatype Config = Config(baselineNamespace: string, baselineName: string, sandboxName: string)

  datatype Workload = Workload(namespace: string, name: string)

  datatype EventContext = EventContext(baselineWorkload: Workload, routingKey: string,
                                       sandboxName: string, message: Json)

  /** An event; `timestamp` is the creation time in milliseconds since the epoch. */
  datatype Event = Event(timestamp: int, logEntry: string, context: EventContext)

  /** The record stored under an event's key. */
  datatype StoredEvent = StoredEvent(id: int, body: Event)

  /** The key of event `id`: the prefix and the id in decimal. */
  function EventKey(id: nat): (key: string)
    ensures EventKeyPrefix <= key
    ensures IsDecimal(key[|EventKeyPrefix|..]) && DecimalValue(key[|EventKeyPrefix|..]) == id
  {
    DecimalRoundTrip(id);
    var key := EventKeyPrefix + NatToString(id);
    assert key[|EventKeyPrefix|..] == NatToString(id);
    key
  }

  /** Distinct ids are stored under distinct keys, so no event overwrites another. */
  lemma EventKeyInjective(a: nat, b: nat)
    requires EventKey(a) == EventKey(b)
    ensures a == b
  {
  }

  /** The SETEX command a store issues. */
  datatype Setex = Setex(key: string, ttlSeconds: int, value: StoredEvent)

  /** How a callback-style operation reported back: onSuccess, or onError with a message. */
  datatype Completion = Succeeded | FailedWith(message: string)

  /**
   * Storing an event: INCR of the event counter (None when it fails) gives
   * the id; then the record is written with SETEX (`setexOk` whether that
   * succeeded). Returns the write issued, if any, and how the store ended.
   */
  function StoreEvent(event: Event, incr: Option<nat>, setexOk: bool): (r: (Option<Setex>, Completion))
    ensures incr.None? ==> r == (None, FailedWith("couldn't generate event ID"))
    ensures incr.Some? ==> r.0 == Some(Setex(EventKey(incr.value), EventTtlSeconds, StoredEvent(incr.value, event)))
    ensures incr.Some? ==> r.1 == if setexOk then Succeeded else FailedWith("couldn't store event in redis")
  {
    match incr
    case None => (None, FailedWith("couldn't generate event ID"))
    case Some(eventID) =>
      var write := Setex(EventKey(eventID), EventTtlSeconds, StoredEvent(eventID, event));
      (Some(write), if setexOk then Succeeded else FailedWith("couldn't store event in redis"))
  }

  /**
   * What a store writes is what a scan finds: the key matches the scan
   * pattern, it names the stored id, and the record carries the event.
   */
  lemma StoredRecordIsScannable(event: Event, id: nat, setexOk: bool)
    ensures var w := StoreEvent(event, Some(id), setexOk).0.value;
      && EventKeyPrefix <= w.key
      && DecimalValue(w.key[|EventKeyPrefix|..]) == w.value.id
      && w.value.body == event
      && w.ttlSeconds == 30
  {
  }

  // ---------------------------------------------------------------------
  // One scan batch
  // ---------------------------------------------------------------------

  /** An MGET value: Nil when the key expired between SCAN and MGET. */
  datatype Slot = Nil | Value(stored: StoredEvent)

  datatype MgetReply = MgetFailed | MgetValues(values: seq<Slot>)

  /**
   * A SCAN reply with the MGET reply for its keys. MGET is only issued
   * for a non-empty batch, so `mget` is not looked at when `keys` is empty.
   */
  datatype ScanReply = ScanFailed | Scanned(newCursor: string, keys: seq<string>, mget: MgetReply)

  datatype ScanRequest = ScanRequest(cursor: string, pattern: string, count: int)

  /** How one batch ends. */
  datatype Step =
    | StepFailed(message: string)              // onError is called
    | StepThrew                                // parsing a value threw inside the callback
    | StepOk(newCursor: string, batch: seq<StoredEvent>)

  /** The records held by the first `n` values, in order (a Nil value holds none). */
  function BatchPrefix(values: seq<Slot>, n: nat): (r: seq<StoredEvent>)
    requires n <= |values|
    ensures |r| <= n
  {
    if n == 0 then []
    else if values[n - 1].Nil? then BatchPrefix(values, n - 1)
    else BatchPrefix(values, n - 1) + [values[n - 1].stored]
  }

  lemma {:induction false} BatchPrefixAt(values: seq<Slot>, n: nat, i: nat)
    requires n <= |values| && forall i :: 0 <= i < n ==> values[i].Value?
    requires i < n
    ensures |BatchPrefix(values, n)| == n && BatchPrefix(values, n)[i] == values[i].stored
  {
    if i < n - 1 {
      BatchPrefixAt(values, n - 1, i);
    } else if n > 1 {
      BatchPrefixAt(values, n - 1, 0);
    }
  }

  /**
   * The records of a batch read in key order, or None when one of them
   * cannot be parsed: a Nil value (`JSON.parse(null)` is null, and reading
   * `.id` of it throws) or a missing one.
   */
  function BatchValues(keys: seq<string>, values: seq<Slot>): Option<seq<StoredEvent>>
  {
    if |keys| <= |values| && forall i :: 0 <= i < |keys| ==> values[i].Value? then
      Some(BatchPrefix(values, |keys|))
    else None
  }

  /** A batch with a missing or nil value among its keys' values cannot be parsed. */
  lemma BatchValuesFails(keys: seq<string>, values: seq<Slot>, index: nat)
    requires index < |keys| && (index >= |values| || values[index].Nil?)
    ensures BatchValues(keys, values).None?
  {
  }

  /** A batch whose values are all present is read as their prefix. */
  lemma BatchValuesReads(keys: seq<string>, values: seq<Slot>)
    requires |keys| <= |values| && forall i :: 0 <= i < |keys| ==> values[i].Value?
    ensures BatchValues(keys, values) == Some(BatchPrefix(values, |keys|))
  {
  }

  /** A parsed batch holds the records of its values, one per key, in order. */
  lemma BatchValuesInOrder(keys: seq<string>, values: seq<Slot>)
    requires BatchValues(keys, values).Some?
    ensures var batch := BatchValues(keys, values).value;
      |batch| == |keys| && forall i :: 0 <= i < |keys| ==> batch[i] == values[i].stored
  {
    if |keys| > 0 {
      BatchPrefixAt(values, |keys|, 0);
    }
    forall i | 0 <= i < |keys|
      ensures BatchValues(keys, values).value[i] == values[i].stored
    {
      BatchPrefixAt(values, |keys|, i);
    }
  }

  /** The outcome of one SCAN reply together with the MGET it triggers. */
  function StepOf(reply: ScanReply): Step
  {
    match reply
    case ScanFailed => StepFailed("couldn't scan events")
    case Scanned(newCursor, keys, mget) =>
      if |keys| > 0 then
        match mget
        case MgetFailed => StepFailed("couldn't read events")
        case MgetValues(values) =>
          match BatchValues(keys, values)
          case None => StepThrew
          case Some(batch) => StepOk(newCursor, batch)
      else StepOk(newCursor, [])
  }

  /** An empty batch skips MGET: its reply makes no difference. */
  lemma EmptyBatchSkipsMget(newCursor: string, m1: MgetReply, m2: MgetReply)
    ensures StepOf(Scanned(newCursor, [], m1)) == StepOf(Scanned(newCursor, [], m2)) == StepOk(newCursor, [])
  {
  }

  // ---------------------------------------------------------------------
  // The cursor filter and the running maximum
  // ---------------------------------------------------------------------

  /**
   * Whether an event is newer than the cursor. The cursor arrives as a
   * query string and `id <= cursor` compares numerically: None stands for
   * a cursor that is missing or not a number, against which every
   * comparison is false, so every event is kept.
   */
  predicate After(id: int, eventsCursor: Option<int>) {
    eventsCursor.None? || id > eventsCursor.value
  }

  /** The records newer than the cursor, in order. */
  function Kept(stored: seq<StoredEvent>, eventsCursor: Option<int>): (r: seq<StoredEvent>)
    ensures |r| <= |stored|
  {
    if stored == [] then []
    else
      var last := stored[|stored| - 1];
      if After(last.id, eventsCursor) then Kept(stored[..|stored| - 1], eventsCursor) + [last]
      else Kept(stored[..|stored| - 1], eventsCursor)
  }

  /** Kept holds exactly the records newer than the cursor. */
  lemma {:induction false} KeptMembers(stored: seq<StoredEvent>, eventsCursor: Option<int>)
    ensures forall x :: x in Kept(stored, eventsCursor) <==> x in stored && After(x.id, eventsCursor)
  {
    if stored != [] {
      var init := stored[..|stored| - 1];
      KeptMembers(init, eventsCursor);
      assert stored == init + [stored[|stored| - 1]];
    }
  }

  lemma {:induction false} KeptAppend(a: seq<StoredEvent>, b: seq<StoredEvent>, eventsCursor: Option<int>)
    ensures Kept(a + b, eventsCursor) == Kept(a, eventsCursor) + Kept(b, eventsCursor)
  {
    if b != [] {
      var b' := b[..|b| - 1];
      assert (a + b)[..|a + b| - 1] == a + b';
      assert (a + b)[|a + b| - 1] == b[|b| - 1];
      KeptAppend(a, b', eventsCursor);
    } else {
      assert a + b == a;
    }
  }

  /** The events of the records, in order. */
  function Bodies(stored: seq<StoredEvent>): (r: seq<Event>)
    ensures |r| == |stored|
  {
    if stored == [] then [] else Bodies(stored[..|stored| - 1]) + [stored[|stored| - 1].body]
  }

  /** The largest id among the records, starting from `init`. */
  function MaxId(stored: seq<StoredEvent>, init: int): int
  {
    if stored == [] then init
    else
      var m := MaxId(stored[..|stored| - 1], init);
      var last := stored[|stored| - 1];
      if last.id > m then last.id else m
  }

  /** MaxId is the maximum: no smaller than `init` or any id, and equal to `init` or one of the ids. */
  lemma {:induction false} MaxIdIsMaximum(stored: seq<StoredEvent>, init: int)
    ensures MaxId(stored, init) >= init
    ensures forall x :: x in stored ==> x.id <= MaxId(stored, init)
    ensures MaxId(stored, init) == init || exists i :: 0 <= i < |stored| && stored[i].id == MaxId(stored, init)
  {
    if stored != [] {
      var init' := stored[..|stored| - 1];
      MaxIdIsMaximum(init', init);
      assert stored == init' + [stored[|stored| - 1]];
      var m := MaxId(init', init);
      if m != init && MaxId(stored, init) == m {
        var i :| 0 <= i < |init'| && init'[i].id == m;
        assert stored[i].id == m;
      }
    }
  }

  lemma {:induction false} MaxIdAppend(a: seq<StoredEvent>, b: seq<StoredEvent>, init: int)
    ensures MaxId(a + b, init) == MaxId(b, MaxId(a, init))
  {
    if b != [] {
      var b' := b[..|b| - 1];
      assert (a + b)[..|a + b| - 1] == a + b';
      assert (a + b)[|a + b| - 1] == b[|b| - 1];
      MaxIdAppend(a, b', init);
    } else {
      assert a + b == a;
    }
  }

  lemma KeptSnoc(s: seq<StoredEvent>, x: StoredEvent, eventsCursor: Option<int>)
    ensures Kept(s + [x], eventsCursor) ==
      if After(x.id, eventsCursor) then Kept(s, eventsCursor) + [x] else Kept(s, eventsCursor)
  {
    assert (s + [x])[..|s|] == s;
  }

  lemma MaxIdSnoc(s: seq<StoredEvent>, x: StoredEvent, init: int)
    ensures MaxId(s + [x], init) == if x.id > MaxId(s, init) then x.id else MaxId(s, init)
  {
    assert (s + [x])[..|s|] == s;
  }

  lemma BodiesSnoc(s: seq<StoredEvent>, x: StoredEvent)
    ensures Bodies(s + [x]) == Bodies(s) + [x.body]
  {
    assert (s + [x])[..|s|] == s;
  }

  /** Whether the value at `i` holds a record newer than the cursor. */
  predicate KeptAt(values: seq<Slot>, i: nat, eventsCursor: Option<int>)
    requires i < |values|
  {
    values[i].Value? && After(values[i].stored.id, eventsCursor)
  }

  /** The events and maximum after visiting the first `n` values of a batch. */
  ghost function Visited(values: seq<Slot>, n: nat, eventsCursor: Option<int>,
                         events0: seq<Event>, lastEventID0: int): (seq<Event>, int)
    requires n <= |values|
  {
    if n == 0 then (events0, lastEventID0)
    else
      var prev := Visited(values, n - 1, eventsCursor, events0, lastEventID0);
      if !KeptAt(values, n - 1, eventsCursor) then prev
      else
        var event := values[n - 1].stored;
        (prev.0 + [event.body], if event.id > prev.1 then event.id else prev.1)
  }

  /** Visiting values one by one appends the events of the kept records. */
  lemma {:induction false} VisitedEvents(values: seq<Slot>, n: nat, eventsCursor: Option<int>,
                                         events0: seq<Event>, lastEventID0: int)
    requires n <= |values|
    ensures Visited(values, n, eventsCursor, events0, lastEventID0).0
         == events0 + Bodies(Kept(BatchPrefix(values, n), eventsCursor))
  {
    if n == 0 {
      assert events0 + [] == events0;
    } else {
      VisitedEvents(values, n - 1, eventsCursor, events0, lastEventID0);
      EventsStep(values, n, eventsCursor, events0);
    }
  }

  /** Visiting values one by one takes the maximum of the kept ids. */
  lemma {:induction false} VisitedMax(values: seq<Slot>, n: nat, eventsCursor: Option<int>,
                                      events0: seq<Event>, lastEventID0: int)
    requires n <= |values|
    ensures Visited(values, n, eventsCursor, events0, lastEventID0).1
         == MaxId(Kept(BatchPrefix(values, n), eventsCursor), lastEventID0)
  {
    if n > 0 {
      VisitedMax(values, n - 1, eventsCursor, events0, lastEventID0);
      MaxStep(values, n, eventsCursor, lastEventID0);
    }
  }

  /** One more value: its record is kept after the earlier ones iff it is present and newer than the cursor. */
  lemma KeptStep(values: seq<Slot>, n: nat, eventsCursor: Option<int>)
    requires 0 < n <= |values|
    ensures Kept(BatchPrefix(values, n), eventsCursor) ==
      if KeptAt(values, n - 1, eventsCursor)
      then Kept(BatchPrefix(values, n - 1), eventsCursor) + [values[n - 1].stored]
      else Kept(BatchPrefix(values, n - 1), eventsCursor)
  {
    if values[n - 1].Value? {
      KeptSnoc(BatchPrefix(values, n - 1), values[n - 1].stored, eventsCursor);
    }
  }

  /** One more value appends the event of its record when that record is kept. */
  lemma EventsStep(values: seq<Slot>, n: nat, eventsCursor: Option<int>, events0: seq<Event>)
    requires 0 < n <= |values|
    ensures var before := events0 + Bodies(Kept(BatchPrefix(values, n - 1), eventsCursor));
      events0 + Bodies(Kept(BatchPrefix(values, n), eventsCursor)) ==
        if KeptAt(values, n - 1, eventsCursor) then before + [values[n - 1].stored.body] else before
  {
    KeptStep(values, n, eventsCursor);
    if KeptAt(values, n - 1, eventsCursor) {
      var kept := Kept(BatchPrefix(values, n - 1), eventsCursor);
      BodiesSnoc(kept, values[n - 1].stored);
      AppendAssociates(events0, Bodies(kept), [values[n - 1].stored.body]);
    }
  }

  /** One more value raises the maximum to the id of its record when that record is kept and larger. */
  lemma MaxStep(values: seq<Slot>, n: nat, eventsCursor: Option<int>, init: int)
    requires 0 < n <= |values|
    ensures var before := MaxId(Kept(BatchPrefix(values, n - 1), eventsCursor), init);
      MaxId(Kept(BatchPrefix(values, n), eventsCursor), init) ==
        if KeptAt(values, n - 1, eventsCursor) && values[n - 1].stored.id > before
        then values[n - 1].stored.id else before
  {
    KeptStep(values, n, eventsCursor);
    if KeptAt(values, n - 1, eventsCursor) {
      MaxIdSnoc(Kept(BatchPrefix(values, n - 1), eventsCursor), values[n - 1].stored, init);
    }
  }

  /**
   * The body of the per-batch loop for one parsed record: skip it when it
   * is not newer than the cursor, and otherwise raise `lastEventID` to its
   * id and push its event.
   */
  method Visit(eventsCursor: Option<int>, event: StoredEvent, events0: seq<Event>, lastEventID0: int)
    returns (events: seq<Event>, lastEventID: int)
    ensures events == if After(event.id, eventsCursor) then events0 + [event.body] else events0
    ensures lastEventID ==
      if After(event.id, eventsCursor) && event.id > lastEventID0 then event.id else lastEventID0
  {
    events, lastEventID := events0, lastEventID0;
    if eventsCursor.Some? && event.id <= eventsCursor.value {
      return;  // not newer than the cursor: skipped
    }
    if event.id > lastEventID {
      lastEventID := event.id;
    }
    events := events + [event.body];
  }

  /**
   * The collectors' per-batch loop: for each key in order, parse its value
   * (stop with `threw` when that throws) and visit its record.
   */
  method CollectBatch(eventsCursor: Option<int>, keys: seq<string>, values: seq<Slot>,
                      events0: seq<Event>, lastEventID0: int)
    returns (threw: bool, events: seq<Event>, lastEventID: int)
    ensures threw <==> BatchValues(keys, values).None?
    ensures !threw ==> var batch := Kept(BatchValues(keys, values).value, eventsCursor);
      && events == events0 + Bodies(batch)
      && lastEventID == MaxId(batch, lastEventID0)
  {
    events, lastEventID := events0, lastEventID0;
    for index := 0 to |keys|
      invariant index <= |values| && forall i :: 0 <= i < index ==> values[i].Value?
      invariant (events, lastEventID) == Visited(values, index, eventsCursor, events0, lastEventID0)
    {
      if index >= |values| || values[index].Nil? {
        BatchValuesFails(keys, values, index);
        return true, events, lastEventID;
      }
      events, lastEventID := Visit(eventsCursor, values[index].stored, events, lastEventID);
    }
    VisitedEvents(values, |keys|, eventsCursor, events0, lastEventID0);
    VisitedMax(values, |keys|, eventsCursor, events0, lastEventID0);
    BatchValuesReads(keys, values);
    threw := false;
  }

  lemma {:induction false} BodiesAppend(a: seq<StoredEvent>, b: seq<StoredEvent>)
    ensures Bodies(a + b) == Bodies(a) + Bodies(b)
  {
    if b != [] {
      var b' := b[..|b| - 1];
      assert (a + b)[..|a + b| - 1] == a + b';
      assert (a + b)[|a + b| - 1] == b[|b| - 1];
      BodiesAppend(a, b');
    } else {
      assert a + b == a;
    }
  }

  /** The body of every record is among the bodies, and every body is that of some record. */
  lemma {:induction false} BodiesMembers(stored: seq<StoredEvent>)
    ensures forall x :: x in stored ==> x.body in Bodies(stored)
    ensures forall e :: e in Bodies(stored) ==> exists x :: x in stored && x.body == e
  {
    if stored != [] {
      var init := stored[..|stored| - 1];
      BodiesMembers(init);
      assert stored == init + [stored[|stored| - 1]];
    }
  }

  /**
   * What the filter and the running maximum deliver over some records:
   * the events of exactly the records newer than the cursor, and as
   * `lastEventID` the largest of their ids, or 0 when there is none.
   */
  lemma NewerEvents(stored: seq<StoredEvent>, eventsCursor: Option<int>)
    ensures var kept := Kept(stored, eventsCursor);
      && (forall x :: x in stored && After(x.id, eventsCursor) ==> x.body in Bodies(kept))
      && (forall e :: e in Bodies(kept) ==> exists x :: x in stored && After(x.id, eventsCursor) && x.body == e)
    ensures var kept, last := Kept(stored, eventsCursor), MaxId(Kept(stored, eventsCursor), 0);
      && last >= 0
      && (forall x :: x in stored && After(x.id, eventsCursor) ==> x.id <= last)
      && (last == 0 || exists x :: x in stored && After(x.id, eventsCursor) && x.id == last)
  {
    var kept := Kept(stored, eventsCursor);
    KeptMembers(stored, eventsCursor);
    BodiesMembers(kept);
    MaxIdIsMaximum(kept, 0);
    var last := MaxId(kept, 0);
    if last != 0 {
      var i :| 0 <= i < |kept| && kept[i].id == last;
      assert kept[i] in kept;
    }
  }

  // ---------------------------------------------------------------------
  // How a collection ends
  // ---------------------------------------------------------------------

  /** How a call of getEvents ends for a sequence of Redis replies. */
  datatype Collection =
    | Done(events: seq<Event>, lastEventID: int)  // onSuccess(events, lastEventID)
    | Failed(message: string)                     // onError(message)
    | Threw                                       // a stored value could not be read: neither callback runs
    | Pending                                     // the replies ran out before a cursor of "0"

  /** How the SCAN callback ends: with a callback of its own, or by passing the cursor on. */
  datatype BatchEnd = Ended(outcome: Collection) | Read(newCursor: string)

  /**
   * The SCAN callback of both collectors, up to the cursor check: a failed
   * SCAN or MGET reports its error, a non-empty batch is read into the
   * accumulators, and the new cursor is passed on.
   */
  method ScanCallback(eventsCursor: Option<int>, reply: ScanReply, events0: seq<Event>, lastEventID0: int)
    returns (end: BatchEnd, events: seq<Event>, lastEventID: int)
    ensures StepOf(reply).StepFailed? ==> end == Ended(Failed(StepOf(reply).message))
    ensures StepOf(reply).StepThrew? ==> end == Ended(Threw)
    ensures StepOf(reply).StepOk? ==> var batch := Kept(StepOf(reply).batch, eventsCursor);
      && end == Read(StepOf(reply).newCursor)
      && events == events0 + Bodies(batch)
      && lastEventID == MaxId(batch, lastEventID0)
  {
    events, lastEventID := events0, lastEventID0;
    match reply {
      case ScanFailed =>
        return Ended(Failed("couldn't scan events")), events, lastEventID;
      case Scanned(newCursor, keys, mget) =>
        if |keys| > 0 {
          match mget {
            case MgetFailed =>
              return Ended(Failed("couldn't read events")), events, lastEventID;
            case MgetValues(values) =>
              var threw;
              threw, events, lastEventID := CollectBatch(eventsCursor, keys, values, events, lastEventID);
              if threw {
                return Ended(Threw), events, lastEventID;
              }
          }
        } else {
          assert events == events0 + Bodies(Kept([], eventsCursor));
        }
        end := Read(newCursor);
    }
  }

  // ---------------------------------------------------------------------
  // The order by timestamp
  // ---------------------------------------------------------------------

  predicate SortedByTimestamp(s: seq<Event>) {
    forall i, j :: 0 <= i < j < |s| ==> s[i].timestamp <= s[j].timestamp
  }

  /**
   * `e` placed into `s` after the last event whose timestamp is not later
   * than its own, as a stable sort does with the last element.
   */
  function Insert(s: seq<Event>, e: Event): seq<Event> {
    if s == [] || s[|s| - 1].timestamp <= e.timestamp then s + [e]
    else Insert(s[..|s| - 1], e) + [s[|s| - 1]]
  }

  /**
   * The events ordered by timestamp, keeping the order among events with
   * equal timestamps: `Array.prototype.sort` is stable, and the collector's
   * comparator subtracts the two timestamps.
   */
  function SortByTimestamp(s: seq<Event>): seq<Event> {
    if s == [] then [] else Insert(SortByTimestamp(s[..|s| - 1]), s[|s| - 1])
  }

  /** The events with timestamp `t`, in order. */
  function WithTimestamp(s: seq<Event>, t: int): seq<Event> {
    if s == [] then []
    else WithTimestamp(s[..|s| - 1], t) + if s[|s| - 1].timestamp == t then [s[|s| - 1]] else []
  }

  lemma {:induction false} InsertPermutes(s: seq<Event>, e: Event)
    ensures multiset(Insert(s, e)) == multiset(s) + multiset{e}
  {
    if s != [] && s[|s| - 1].timestamp > e.timestamp {
      var init, last := s[..|s| - 1], s[|s| - 1];
      InsertPermutes(init, e);
      assert s == init + [last];
    }
  }

  /** Inserting below a bound stays below it. */
  lemma {:induction false} InsertBounded(s: seq<Event>, e: Event, bound: int)
    requires forall i :: 0 <= i < |s| ==> s[i].timestamp <= bound
    requires e.timestamp <= bound
    ensures forall i :: 0 <= i < |Insert(s, e)| ==> Insert(s, e)[i].timestamp <= bound
  {
    if s != [] && s[|s| - 1].timestamp > e.timestamp {
      InsertBounded(s[..|s| - 1], e, bound);
    }
  }

  lemma {:induction false} InsertSorted(s: seq<Event>, e: Event)
    requires SortedByTimestamp(s)
    ensures SortedByTimestamp(Insert(s, e))
  {
    if s != [] && s[|s| - 1].timestamp > e.timestamp {
      var init, last := s[..|s| - 1], s[|s| - 1];
      InsertSorted(init, e);
      InsertBounded(init, e, last.timestamp);
    }
  }

  lemma WithTimestampSnoc(s: seq<Event>, x: Event, t: int)
    ensures WithTimestamp(s + [x], t) == WithTimestamp(s, t) + if x.timestamp == t then [x] else []
  {
    assert (s + [x])[..|s|] == s;
  }

  lemma {:induction false} InsertKeepsTies(s: seq<Event>, e: Event, t: int)
    ensures WithTimestamp(Insert(s, e), t) == WithTimestamp(s, t) + if e.timestamp == t then [e] else []
  {
    if s == [] || s[|s| - 1].timestamp <= e.timestamp {
      WithTimestampSnoc(s, e, t);
    } else {
      var init, last := s[..|s| - 1], s[|s| - 1];
      assert s == init + [last];
      InsertKeepsTies(init, e, t);
      WithTimestampSnoc(Insert(init, e), last, t);
      WithTimestampSnoc(init, last, t);
      if e.timestamp == t {
        assert last.timestamp != t;
        assert WithTimestamp(s, t) == WithTimestamp(init, t);
      } else {
        assert WithTimestamp(Insert(init, e), t) == WithTimestamp(init, t);
      }
    }
  }

  /**
   * What the collector's sort delivers: the events in timestamp order, the
   * same events as many times each, and those sharing a timestamp in their
   * original order.
   */
  lemma {:induction false} SortByTimestampIsStableSort(s: seq<Event>)
    ensures SortedByTimestamp(SortByTimestamp(s))
    ensures multiset(SortByTimestamp(s)) == multiset(s)
    ensures forall t :: WithTimestamp(SortByTimestamp(s), t) == WithTimestamp(s, t)
  {
    SortIsSorted(s);
    SortPermutes(s);
    forall t
      ensures WithTimestamp(SortByTimestamp(s), t) == WithTimestamp(s, t)
    {
      SortKeepsTies(s, t);
    }
  }

  lemma {:induction false} SortIsSorted(s: seq<Event>)
    ensures SortedByTimestamp(SortByTimestamp(s))
  {
    if s != [] {
      SortIsSorted(s[..|s| - 1]);
      InsertSorted(SortByTimestamp(s[..|s| - 1]), s[|s| - 1]);
    }
  }

  lemma SnocMultiset(s: seq<Event>)
    requires s != []
    ensures multiset(s) == multiset(s[..|s| - 1]) + multiset{s[|s| - 1]}
  {
    assert s == s[..|s| - 1] + [s[|s| - 1]];
  }

  lemma {:induction false} SortPermutes(s: seq<Event>)
    ensures multiset(SortByTimestamp(s)) == multiset(s)
  {
    if s != [] {
      var init, last := s[..|s| - 1], s[|s| - 1];
      SortPermutes(init);
      InsertPermutes(SortByTimestamp(init), last);
      SnocMultiset(s);
    }
  }

  lemma {:induction false} SortKeepsTies(s: seq<Event>, t: int)
    ensures WithTimestamp(SortByTimestamp(s), t) == WithTimestamp(s, t)
  {
    if s != [] {
      var init, last := s[..|s| - 1], s[|s| - 1];
      SortKeepsTies(init, t);
      InsertKeepsTies(SortByTimestamp(init), last, t);
    }
  }

  // ---------------------------------------------------------------------
  // The scan requests
  // ---------------------------------------------------------------------

  /** Whether a batch asks for another: it was read and its cursor is not "0". */
  predicate Continues(step: Step) {
    step.StepOk? && step.newCursor != "0"
  }

  /**
   * The SCAN requests a collection issues against the replies: the first
   * from `cursor` with the given pattern and count, each later one from
   * the previous reply's cursor with the defaults. The last request may be
   * still unanswered.
   */
  function ScanTrace(cursor: string, pattern: string, count: int, replies: seq<ScanReply>)
    : (requests: seq<ScanRequest>)
    decreases |replies|
    ensures 1 <= |requests| <= |replies| + 1
    ensures requests[0] == ScanRequest(cursor, pattern, count)
  {
    if replies != [] && Continues(StepOf(replies[0])) then
      [ScanRequest(cursor, pattern, count)] + ScanTrace(StepOf(replies[0]).newCursor, ScanMatch, ScanCount, replies[1..])
    else [ScanRequest(cursor, pattern, count)]
  }

  /**
   * Every request after the first continues from the cursor of the reply
   * before it, with the default pattern and count, and only a batch that
   * continues is followed by another request.
   */
  lemma {:induction false} ScanTraceFollowsCursors(cursor: string, pattern: string, count: int, replies: seq<ScanReply>)
    ensures var requests := ScanTrace(cursor, pattern, count, replies);
      forall i :: 0 <= i < |requests| - 1 ==>
        (Continues(StepOf(replies[i])) &&
         requests[i + 1] == ScanRequest(StepOf(replies[i]).newCursor, ScanMatch, ScanCount))
    ensures var requests := ScanTrace(cursor, pattern, count, replies);
      |requests| <= |replies| ==> !Continues(StepOf(replies[|requests| - 1]))
    decreases |replies|
  {
    if replies != [] && Continues(StepOf(replies[0])) {
      var rest := ScanTrace(StepOf(replies[0]).newCursor, ScanMatch, ScanCount, replies[1..]);
      ScanTraceFollowsCursors(StepOf(replies[0]).newCursor, ScanMatch, ScanCount, replies[1..]);
      assert forall i :: 1 <= i < |rest| ==> replies[1..][i - 1] == replies[i];
      assert |rest| <= |replies[1..]| ==> replies[1..][|rest| - 1] == replies[|rest|];
    }
  }

  /** One step of the trace: a batch that continues asks for the next one from its cursor. */
  lemma ScanTraceStep(cursor: string, pattern: string, count: int, replies: seq<ScanReply>)
    requires replies != []
    ensures Continues(StepOf(replies[0])) ==>
      (ScanTrace(cursor, pattern, count, replies) ==
      [ScanRequest(cursor, pattern, count)] + ScanTrace(StepOf(replies[0]).newCursor, ScanMatch, ScanCount, replies[1..]))
    ensures !Continues(StepOf(replies[0])) ==>
      (ScanTrace(cursor, pattern, count, replies) ==
      [ScanRequest(cursor, pattern, count)])
  {
  }
}
