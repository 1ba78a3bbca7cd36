/**
 * The routing client of the Temporal tutorial worker: a cache of the
 * routing keys the route server lists for this baseline, refreshed when it
 * is older than the refresh interval, and the admission rule that decides
 * from that cache whether this worker (the baseline, or a named sandbox)
 * runs a task.
 */
module TutorialRouting {
  import opened Wire
  import opened Text
  import opened RouteQuery

  // ---------------------------------------------------------------------
  // Parsing a routing-rules response
  // ---------------------------------------------------------------------

  /**
   * Python's str() of a decoded JSON value. A string is itself, an integer
   * its decimal numeral, a boolean "True" or "False"; arrays and objects
   * are rendered by a fixed marker (see the README).
   */
  function PyStr(v: Json): (s: string)
    ensures v.JStr? ==> s == v.s
    ensures v.JInt? ==> s == IntToString(v.i)
  {
    match v
    case JNull => "None"
    case JBool(b) => if b then "True" else "False"
    case JInt(i) => IntToString(i)
    case JStr(s) => s
    case JArr(_) => "[...]"
    case JObj(_) => "{...}"
  }

  /**
   * The key one rule contributes: its routingKey converted with str(), when
   * the rule is an object whose routingKey is present and not null.
   */
  function RuleKey(rule: Json): (k: Option<string>)
    ensures k.Some? <==> rule.JObj? && "routingKey" in rule.fields && !rule.fields["routingKey"].JNull?
  {
    if rule.JObj? && "routingKey" in rule.fields && !rule.fields["routingKey"].JNull?
    then Some(PyStr(rule.fields["routingKey"]))
    else None
  }

  /** The keys a list of rules contributes, skipping rules without one. */
  function KeysOfRules(rules: seq<Json>): (keys: set<string>)
    ensures forall k :: k in keys <==> exists i :: 0 <= i < |rules| && RuleKey(rules[i]) == Some(k)
  {
    if rules == [] then {}
    else
      var init := KeysOfRules(rules[..|rules| - 1]);
      assert forall i :: 0 <= i < |rules| - 1 ==> rules[..|rules| - 1][i] == rules[i];
      match RuleKey(rules[|rules| - 1])
      case Some(k) => init + {k}
      case None => init
  }

  /**
   * The rules of a decoded 200 body: the routingRules array of an object,
   * or no rules at all when the body does not have that shape.
   */
  function RulesOf(data: Json): (rules: seq<Json>)
    ensures !data.JObj? ==> rules == []
    ensures data.JObj? && "routingRules" in data.fields && data.fields["routingRules"].JArr?
      ==> rules == data.fields["routingRules"].elems
  {
    match Member(data, "routingRules")
    case Some(JArr(rules)) => rules
    case _ => []
  }

  /** The routing keys a decoded 200 body lists. */
  function RoutingKeysOf(data: Json): (keys: set<string>)
    ensures forall k :: k in keys <==>
      exists i :: 0 <= i < |RulesOf(data)| && RuleKey(RulesOf(data)[i]) == Some(k)
  {
    KeysOfRules(RulesOf(data))
  }

  /** A body of the wrong shape still parses, to the empty set of keys. */
  lemma WrongShapeGivesNoKeys(data: Json)
    requires !data.JObj? || "routingRules" !in data.fields || !data.fields["routingRules"].JArr?
    ensures RoutingKeysOf(data) == {}
  {
    assert RulesOf(data) == [];
  }

  /** A fetch updates the cache only on status 200 with a body that decodes as JSON. */
  predicate FetchSucceeded(reply: HttpReply) {
    reply.Reply? && reply.status == 200 && reply.body.Some?
  }

  // ---------------------------------------------------------------------
  // Admission
  // ---------------------------------------------------------------------

  /** A task is claimed by a sandbox when it carries a key the route server lists. */
  predicate Claimed(routingKey: Option<string>, keys: set<string>) {
    routingKey.Some? && routingKey.value in keys
  }

  // ---------------------------------------------------------------------
  // The client
  // ---------------------------------------------------------------------

  /** One call of the cache refresh could end in these ways. */
  datatype EnsureOutcome =
    | CacheFresh           // the cache was fresh: nothing to do
    | AwaitedOtherRefresh  // another caller held the lock: this one waited for its signal
    | RecheckedFresh       // fresh again once the lock was taken
    | Fetched              // this caller fetched (successfully or not)
    | FetchCancelled       // this caller's fetch was cancelled; the cancellation propagates

  /**
   * How this caller's fetch ended: the HTTP reply; cancellation of the task
   * before the reply was handled; or cancellation after it was handled, in
   * the awaits of the two `async with` exits (releasing the response and
   * closing the session).
   */
  datatype FetchAttempt =
    | Completed(reply: HttpReply)
    | CancelledInFlight
    | CancelledAfterRead(reply: HttpReply)

  /** Whether a refresh that ended with `outcome` handled a successful reply. */
  predicate Updated(outcome: EnsureOutcome, attempt: FetchAttempt) {
    outcome in {Fetched, FetchCancelled} && !attempt.CancelledInFlight? && FetchSucceeded(attempt.reply)
  }

  class RoutesApiClient {
    const sandboxName: string
    const routeServerScheme: string
    const routeServerNetloc: string
    const baselineKind: string
    const baselineNamespace: string
    const baselineName: string
    const refreshInterval: int
    var routingKeysCache: set<string>
    var lastSuccessfulUpdateTime: int
    var isFirstUpdateDone: bool
    /** Whether the "cache updated" event is set. */
    var cacheUpdatedEvent: bool

    /**
     * The configuration comes from the environment; `parsedScheme` and
     * `parsedNetloc` are the parts of the route server address.
     */
    constructor (sandboxName: string, parsedScheme: string, parsedNetloc: string,
                 baselineKind: string, baselineNamespace: string, baselineName: string,
                 refreshInterval: int)
      ensures this.sandboxName == sandboxName && routeServerNetloc == parsedNetloc
      ensures routeServerScheme == if parsedScheme == "" then "http" else parsedScheme
      ensures this.baselineKind == baselineKind && this.baselineNamespace == baselineNamespace
      ensures this.baselineName == baselineName && this.refreshInterval == refreshInterval
      ensures routingKeysCache == {} && lastSuccessfulUpdateTime == 0
      ensures !isFirstUpdateDone && !cacheUpdatedEvent
    {
      this.sandboxName := sandboxName;
      routeServerScheme := if parsedScheme == "" then "http" else parsedScheme;
      routeServerNetloc := parsedNetloc;
      this.baselineKind := baselineKind;
      this.baselineNamespace := baselineNamespace;
      this.baselineName := baselineName;
      this.refreshInterval := refreshInterval;
      routingKeysCache := {};
      lastSuccessfulUpdateTime := 0;
      isFirstUpdateDone := false;
      cacheUpdatedEvent := false;
    }

    /** The routing-rules URL for this worker, before encoding. */
    function BuildRoutesUrl(): (url: Url)
      ensures url.scheme == routeServerScheme && url.host == routeServerNetloc
      ensures url.path == RoutingRulesPath
      ensures Lookup(url.query, "baselineKind") == Some(baselineKind)
      ensures Lookup(url.query, "baselineNamespace") == Some(baselineNamespace)
      ensures Lookup(url.query, "baselineName") == Some(baselineName)
      ensures Lookup(url.query, "destinationSandboxName") ==
        if sandboxName == "" then None else Some(sandboxName)
      ensures |url.query| == if sandboxName == "" then 3 else 4
      ensures url.query[..3] ==
        [("baselineKind", baselineKind), ("baselineNamespace", baselineNamespace), ("baselineName", baselineName)]
    {
      QueryNamesSandboxOnlyForSandbox(baselineKind, baselineNamespace, baselineName, sandboxName);
      Url(routeServerScheme, routeServerNetloc, RoutingRulesPath,
          RoutingRulesQuery(baselineKind, baselineNamespace, baselineName, sandboxName))
    }

    /**
     * Whether this worker runs a task with the given routing key: a sandbox
     * exactly the tasks its cache claims, the baseline exactly the others.
     */
    function ShouldProcess(routingKey: Option<string>): (accept: bool)
      reads this
      ensures sandboxName != "" ==> (accept <==> Claimed(routingKey, routingKeysCache))
      ensures sandboxName == "" ==> (accept <==> !Claimed(routingKey, routingKeysCache))
    {
      var currentCachedKeys := routingKeysCache;
      if sandboxName != "" then
        if routingKey.None? then false else routingKey.value in currentCachedKeys
      else
        if routingKey.None? then true else routingKey.value !in currentCachedKeys
    }

    /** Whether the cache is due for a refresh at clock reading `now`. */
    predicate NeedsUpdate(now: int)
      reads this
    {
      !isFirstUpdateDone || now - lastSuccessfulUpdateTime > refreshInterval
    }

    /**
     * One fetch of the routing rules and the cache update that follows,
     * `now` being the clock reading after the response arrived. On success
     * the cache is replaced wholesale; on any failure nothing changes.
     */
    method PerformFetchAndUpdate(reply: HttpReply, now: int)
      modifies this`routingKeysCache, this`lastSuccessfulUpdateTime, this`isFirstUpdateDone
      ensures FetchSucceeded(reply) ==>
        && routingKeysCache == RoutingKeysOf(reply.body.value)
        && lastSuccessfulUpdateTime == now
        && isFirstUpdateDone
      ensures !FetchSucceeded(reply) ==>
        && routingKeysCache == old(routingKeysCache)
        && lastSuccessfulUpdateTime == old(lastSuccessfulUpdateTime)
        && isFirstUpdateDone == old(isFirstUpdateDone)
    {
      if reply.Reply? && reply.status == 200 {
        match reply.body {
          case None =>
            // decoding the body raised; the error is logged
          case Some(data) =>
            var newRoutingKeys: set<string> := {};
            if data.JObj? && "routingRules" in data.fields && data.fields["routingRules"].JArr? {
              var rules := data.fields["routingRules"].elems;
              for i := 0 to |rules|
                invariant newRoutingKeys == KeysOfRules(rules[..i])
              {
                var rule := rules[i];
                assert rules[..i + 1][..i] == rules[..i];
                if rule.JObj? && "routingKey" in rule.fields && !rule.fields["routingKey"].JNull? {
                  newRoutingKeys := newRoutingKeys + {PyStr(rule.fields["routingKey"])};
                }
              }
              assert rules[..|rules|] == rules;
            }
            routingKeysCache := newRoutingKeys;
            lastSuccessfulUpdateTime := now;
            isFirstUpdateDone := true;
        }
      }
      // any other status: the error is logged and the cache kept
    }

    /**
     * One call of the refresh at clock reading `now`. `lockHeld` says
     * whether another caller holds the update lock at that moment,
     * `nowAfterLock` is the clock reading once this caller has the lock,
     * `attempt` how its fetch ends and `nowAfterFetch` the clock reading
     * after the response.
     */
    method EnsureCacheFresh(now: int, lockHeld: bool, nowAfterLock: int,
                            attempt: FetchAttempt, nowAfterFetch: int)
      returns (outcome: EnsureOutcome)
      modifies this`routingKeysCache, this`lastSuccessfulUpdateTime, this`isFirstUpdateDone,
               this`cacheUpdatedEvent
      // which path the call takes
      ensures !old(NeedsUpdate(now)) ==> outcome == CacheFresh
      ensures old(NeedsUpdate(now)) && lockHeld ==> outcome == AwaitedOtherRefresh
      ensures old(NeedsUpdate(now)) && !lockHeld && !old(NeedsUpdate(nowAfterLock)) ==>
        outcome == RecheckedFresh
      ensures old(NeedsUpdate(now)) && !lockHeld && old(NeedsUpdate(nowAfterLock)) ==>
        outcome == if attempt.Completed? then Fetched else FetchCancelled
      // the cache changes only through a successful fetch whose reply was handled,
      // even when the task is cancelled afterwards
      ensures Updated(outcome, attempt) ==>
        && routingKeysCache == RoutingKeysOf(attempt.reply.body.value)
        && lastSuccessfulUpdateTime == nowAfterFetch
        && isFirstUpdateDone
      ensures !Updated(outcome, attempt) ==>
        && routingKeysCache == old(routingKeysCache)
        && lastSuccessfulUpdateTime == old(lastSuccessfulUpdateTime)
        && isFirstUpdateDone == old(isFirstUpdateDone)
      // the lock holder always leaves the event set, even when its fetch is cancelled
      ensures outcome in {RecheckedFresh, Fetched, FetchCancelled} ==> cacheUpdatedEvent
      ensures outcome in {CacheFresh, AwaitedOtherRefresh} ==> cacheUpdatedEvent == old(cacheUpdatedEvent)
    {
      var needsUpdate := NeedsUpdate(now);
      if !needsUpdate {
        return CacheFresh;
      }
      if lockHeld {
        // wait for the holder's signal; this caller changes nothing
        return AwaitedOtherRefresh;
      }
      if NeedsUpdate(nowAfterLock) {
        cacheUpdatedEvent := false;
        match attempt {
          case Completed(reply) =>
            PerformFetchAndUpdate(reply, nowAfterFetch);
            outcome := Fetched;
          case CancelledInFlight =>
            outcome := FetchCancelled;
          case CancelledAfterRead(reply) =>
            PerformFetchAndUpdate(reply, nowAfterFetch);
            outcome := FetchCancelled;
        }
        // `finally`: set the event whatever the fetch did
        cacheUpdatedEvent := true;
      } else {
        if !cacheUpdatedEvent {
          cacheUpdatedEvent := true;
        }
        outcome := RecheckedFresh;
      }
    }
  }

  // ---------------------------------------------------------------------
  // Properties
  // ---------------------------------------------------------------------

  /** A sandbox worker never takes a task without a routing key; the baseline always does. */
  lemma AbsentKeyGoesToBaseline(c: RoutesApiClient)
    ensures c.sandboxName != "" ==> !c.ShouldProcess(None)
    ensures c.sandboxName == "" ==> c.ShouldProcess(None)
  {
  }

  /**
   * For a present key and the same cache, a sandbox worker and the baseline
   * decide oppositely: exactly one of them runs the task.
   */
  lemma SandboxAndBaselineComplementary(sandbox: RoutesApiClient, baseline: RoutesApiClient, key: string)
    requires sandbox.sandboxName != "" && baseline.sandboxName == ""
    requires sandbox.routingKeysCache == baseline.routingKeysCache
    ensures sandbox.ShouldProcess(Some(key)) != baseline.ShouldProcess(Some(key))
  {
  }

  /** Before the first successful fetch the baseline takes everything and a sandbox nothing. */
  lemma FreshClientFavorsBaseline(c: RoutesApiClient, key: Option<string>)
    requires c.routingKeysCache == {}
    ensures c.ShouldProcess(key) <==> c.sandboxName == ""
  {
  }

  /**
   * Without another task running between the staleness check and taking
   * the lock, and with a clock that does not go back, the re-check agrees
   * with the first check: it matters only when another caller refreshed in
   * between.
   */
  lemma RecheckAgreesWithoutInterleaving(c: RoutesApiClient, now: int, nowAfterLock: int)
    requires now <= nowAfterLock
    requires c.NeedsUpdate(now)
    ensures c.NeedsUpdate(nowAfterLock)
  {
  }

  /**
   * Refreshing twice: a first call on a stale cache fetches, and when the
   * fetch succeeds a second call within the refresh interval of it fetches
   * nothing and leaves the cache as the first call set it.
   */
  method RefreshTwice(c: RoutesApiClient, reply: HttpReply, t1: int, t2: int)
    returns (first: EnsureOutcome, second: EnsureOutcome)
    requires c.NeedsUpdate(t1) && t1 <= t2
    requires FetchSucceeded(reply)
    requires t2 - t1 <= c.refreshInterval
    modifies c
    ensures first == Fetched && second == CacheFresh
    ensures c.routingKeysCache == RoutingKeysOf(reply.body.value)
  {
    first := c.EnsureCacheFresh(t1, false, t1, Completed(reply), t1);
    second := c.EnsureCacheFresh(t2, false, t2, Completed(reply), t2);
  }
}
