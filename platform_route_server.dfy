/**
 * The routing client of the older Temporal platform worker: a set of
 * routing keys replaced by each successful pull from the route server and
 * kept as it is by a failed one, and the same admission rule as the
 * tutorial's, on plain string keys.
 *
 * As written, the pull awaits the Response returned by httpx's synchronous
 * `get`, which raises before the body is read; the exception is caught and
 * logged, so the keys are never updated. `PullRoutesAsWritten` models that
 * code; `PullRoutes` models the evidently intended pull (an awaitable GET),
 * which the rest of the model uses.
 */
module PlatformRouteServer {
  import opened Wire
  import opened RouteQuery

  // ---------------------------------------------------------------------
  // The keys of a pulled body
  // ---------------------------------------------------------------------

  /** A value Python can put in a set: anything decoded from JSON but a list or a dict. */
  predicate Hashable(v: Json) {
    !v.JArr? && !v.JObj?
  }

  /**
   * `r["routingKey"]` for one element of routingRules, when it neither
   * raises nor yields an unhashable value: the element must be an object
   * holding that member.
   */
  function RuleKeyOf(rule: Json): (k: Option<Json>)
    ensures k.Some? <==> rule.JObj? && "routingKey" in rule.fields && Hashable(rule.fields["routingKey"])
    ensures k.Some? ==> k.value == rule.fields["routingKey"]
  {
    if rule.JObj? && "routingKey" in rule.fields && Hashable(rule.fields["routingKey"])
    then Some(rule.fields["routingKey"])
    else None
  }

  /**
   * The set comprehension over a list of rules: the set of their keys, or
   * None when any one rule raises (so the comprehension as a whole raises).
   */
  function KeysOfRuleList(rules: seq<Json>): (r: Option<set<Json>>)
    ensures r.Some? <==> forall i :: 0 <= i < |rules| ==> RuleKeyOf(rules[i]).Some?
    ensures r.Some? ==> forall k :: k in r.value <==>
      exists i :: 0 <= i < |rules| && RuleKeyOf(rules[i]) == Some(k)
  {
    if rules == [] then Some({})
    else
      var init := KeysOfRuleList(rules[..|rules| - 1]);
      assert forall i :: 0 <= i < |rules| - 1 ==> rules[..|rules| - 1][i] == rules[i];
      match RuleKeyOf(rules[|rules| - 1])
      case None => None
      case Some(k) => if init.None? then None else Some(init.value + {k})
  }

  /**
   * The keys a decoded body yields, or None when reading them raises.
   * `data.get` needs an object; a missing routingRules is an empty list.
   * Iterating an object gives its member names and a string its
   * characters, and indexing either with "routingKey" raises, so those
   * yield keys only when empty; null, numbers and booleans cannot be
   * iterated at all.
   */
  function KeysOfBody(data: Json): (r: Option<set<Json>>)
    ensures !data.JObj? ==> r.None?
    ensures data.JObj? && "routingRules" !in data.fields ==> r == Some({})
    ensures data.JObj? && "routingRules" in data.fields && data.fields["routingRules"].JArr? ==>
      r == KeysOfRuleList(data.fields["routingRules"].elems)
  {
    match data
    case JObj(fields) =>
      var rules := if "routingRules" in fields then fields["routingRules"] else JArr([]);
      match rules {
        case JArr(elems) => KeysOfRuleList(elems)
        case JObj(members) => if members == map[] then Some({}) else None
        case JStr(s) => if s == "" then Some({}) else None
        case _ => None
      }
    case _ => None
  }

  /**
   * The keys of a reply, or None when the pull raises: a transport error
   * or a body that is not JSON raises; the status code is never looked at.
   */
  function KeysOfReply(reply: HttpReply): (r: Option<set<Json>>)
    ensures reply.TransportError? ==> r.None?
    ensures reply.Reply? && reply.body.None? ==> r.None?
    ensures reply.Reply? && reply.body.Some? ==> r == KeysOfBody(reply.body.value)
  {
    match reply
    case TransportError => None
    case Reply(_, body) => if body.None? then None else KeysOfBody(body.value)
  }

  /** Any status code with the same body gives the same keys. */
  lemma StatusIsIgnored(s1: int, s2: int, body: Option<Json>)
    ensures KeysOfReply(Reply(s1, body)) == KeysOfReply(Reply(s2, body))
  {
  }

  /** One rule without a routingKey makes the whole pull fail. */
  lemma RuleWithoutKeyFailsPull(rules: seq<Json>, i: nat)
    requires i < |rules| && rules[i].JObj? && "routingKey" !in rules[i].fields
    ensures KeysOfBody(JObj(map["routingRules" := JArr(rules)])).None?
  {
    assert RuleKeyOf(rules[i]).None?;
  }

  // ---------------------------------------------------------------------
  // Awaiting the GET
  // ---------------------------------------------------------------------

  /**
   * What the GET call hands to `await`: a plain Response (httpx's
   * synchronous `get`) or an awaitable that completes with the reply
   * (an asynchronous client's `get`).
   */
  datatype GetCall = SyncResponse(reply: HttpReply) | AwaitableGet(reply: HttpReply)

  /** `await` on a call: a plain Response is not awaitable and raises TypeError. */
  function Await(call: GetCall): (r: Result<HttpReply>)
    ensures r.Ok? <==> call.AwaitableGet?
    ensures r.Ok? ==> r.value == call.reply
  {
    match call
    case SyncResponse(_) => Err("object Response can't be used in 'await' expression")
    case AwaitableGet(reply) => Ok(reply)
  }

  /** The keys a pull through this call yields, or None when it raises. */
  function KeysOfCall(call: GetCall): (r: Option<set<Json>>)
    ensures call.SyncResponse? ==> r.None?
    ensures call.AwaitableGet? ==> r == KeysOfReply(call.reply)
  {
    match Await(call)
    case Err(_) => None
    case Ok(reply) => KeysOfReply(reply)
  }

  /** The key set after a sequence of pulls: each one replaces it or leaves it. */
  function KeysAfter(keys: set<Json>, calls: seq<GetCall>): set<Json>
  {
    if calls == [] then keys
    else
      var before := KeysAfter(keys, calls[..|calls| - 1]);
      match KeysOfCall(calls[|calls| - 1])
      case Some(k) => k
      case None => before
  }

  /** The pulls the code as written makes: every reply comes back as a plain Response. */
  function SyncCalls(replies: seq<HttpReply>): (calls: seq<GetCall>)
    ensures |calls| == |replies|
    ensures forall i :: 0 <= i < |replies| ==> calls[i] == SyncResponse(replies[i])
  {
    seq(|replies|, i requires 0 <= i < |replies| => SyncResponse(replies[i]))
  }

  /** The pulls as intended: every reply comes back through an awaitable GET. */
  function AwaitableCalls(replies: seq<HttpReply>): (calls: seq<GetCall>)
    ensures |calls| == |replies|
    ensures forall i :: 0 <= i < |replies| ==> calls[i] == AwaitableGet(replies[i])
  {
    seq(|replies|, i requires 0 <= i < |replies| => AwaitableGet(replies[i]))
  }

  /** As written, no sequence of pulls ever changes the keys, whatever the server replies. */
  lemma {:induction false} SyncPullsNeverChangeKeys(keys: set<Json>, replies: seq<HttpReply>)
    ensures KeysAfter(keys, SyncCalls(replies)) == keys
  {
    if replies != [] {
      var calls := SyncCalls(replies);
      assert calls[..|calls| - 1] == SyncCalls(replies[..|replies| - 1]);
      SyncPullsNeverChangeKeys(keys, replies[..|replies| - 1]);
    }
  }

  /**
   * As intended, the keys after a sequence of pulls are those of the last
   * pull that did not raise, or the starting keys when every pull raised.
   */
  lemma {:induction false} LastGoodPullWins(keys: set<Json>, replies: seq<HttpReply>, j: nat)
    requires j < |replies| && KeysOfReply(replies[j]).Some?
    requires forall i :: j < i < |replies| ==> KeysOfReply(replies[i]).None?
    ensures KeysAfter(keys, AwaitableCalls(replies)) == KeysOfReply(replies[j]).value
  {
    var calls := AwaitableCalls(replies);
    var init := replies[..|replies| - 1];
    assert calls[..|calls| - 1] == AwaitableCalls(init);
    if j < |replies| - 1 {
      LastGoodPullWins(keys, init, j);
    }
  }

  // ---------------------------------------------------------------------
  // The client
  // ---------------------------------------------------------------------

  class RouteServerClient {
    const serverAddr: string
    const baselineKind: string
    const baselineNamespace: string
    const baselineName: string
    const sandboxName: string
    var routingKeys: set<Json>

    constructor (serverAddr: string, baselineKind: string, baselineNamespace: string,
                 baselineName: string, sandboxName: string)
      ensures this.serverAddr == serverAddr && this.sandboxName == sandboxName
      ensures this.baselineKind == baselineKind && this.baselineNamespace == baselineNamespace
      ensures this.baselineName == baselineName
      ensures routingKeys == {}
    {
      this.serverAddr := serverAddr;
      this.baselineKind := baselineKind;
      this.baselineNamespace := baselineNamespace;
      this.baselineName := baselineName;
      this.sandboxName := sandboxName;
      routingKeys := {};
    }

    /** The URL of a pull, before encoding: always plain http to the configured address. */
    function PullUrl(): (url: Url)
      ensures url.scheme == "http" && url.host == serverAddr && url.path == RoutingRulesPath
      ensures Lookup(url.query, "baselineKind") == Some(baselineKind)
      ensures Lookup(url.query, "baselineNamespace") == Some(baselineNamespace)
      ensures Lookup(url.query, "baselineName") == Some(baselineName)
      ensures Lookup(url.query, "destinationSandboxName") ==
        if sandboxName == "" then None else Some(sandboxName)
      ensures |url.query| == if sandboxName == "" then 3 else 4
      ensures url.query[..3] ==
        [("baselineKind", baselineKind), ("baselineNamespace", baselineNamespace), ("baselineName", baselineName)]
    {
      QueryNamesSandboxOnlyForSandbox(baselineKind, baselineNamespace, baselineName, sandboxName);
      Url("http", serverAddr, RoutingRulesPath,
          RoutingRulesQuery(baselineKind, baselineNamespace, baselineName, sandboxName))
    }

    /**
     * Whether this worker runs a task with this routing key: a sandbox
     * exactly those whose key was pulled, the baseline exactly the others.
     */
    function ShouldProcess(routingKey: string): (accept: bool)
      reads this
      ensures sandboxName != "" ==> (accept <==> JStr(routingKey) in routingKeys)
      ensures sandboxName == "" ==> (accept <==> JStr(routingKey) !in routingKeys)
    {
      if sandboxName != "" then JStr(routingKey) in routingKeys
      else JStr(routingKey) !in routingKeys
    }

    /**
     * One pull through the given GET call: the key set is replaced by the
     * pulled keys, or, when anything raises, logged and left as it was.
     */
    method PullVia(call: GetCall)
      modifies this`routingKeys
      ensures KeysOfCall(call).Some? ==> routingKeys == KeysOfCall(call).value
      ensures KeysOfCall(call).None? ==> routingKeys == old(routingKeys)
    {
      match Await(call) {
        case Err(_) =>
          // the exception is logged
        case Ok(resp) =>
          match KeysOfReply(resp) {
            case Some(keys) => routingKeys := keys;
            case None =>
              // the exception is logged
          }
      }
    }

    /** The pull as written: the awaited Response raises, so the keys never change. */
    method PullRoutesAsWritten(reply: HttpReply)
      modifies this`routingKeys
      ensures routingKeys == old(routingKeys)
    {
      PullVia(SyncResponse(reply));
    }

    /** The pull as intended: replace the keys with the pulled ones unless the pull raises. */
    method PullRoutes(reply: HttpReply)
      modifies this`routingKeys
      ensures KeysOfReply(reply).Some? ==> routingKeys == KeysOfReply(reply).value
      ensures KeysOfReply(reply).None? ==> routingKeys == old(routingKeys)
    {
      PullVia(AwaitableGet(reply));
    }

    /**
     * The first pulls of the worker's background loop (one at start, then
     * one every five seconds), each through the call the code makes.
     */
    method Run(calls: seq<GetCall>)
      modifies this`routingKeys
      ensures routingKeys == KeysAfter(old(routingKeys), calls)
    {
      for i := 0 to |calls|
        invariant routingKeys == KeysAfter(old(routingKeys), calls[..i])
      {
        assert calls[..i + 1][..i] == calls[..i];
        PullVia(calls[i]);
      }
      assert calls[..|calls|] == calls;
    }
  }

  // ---------------------------------------------------------------------
  // Properties
  // ---------------------------------------------------------------------

  /** Before any pull the baseline runs every task and a sandbox none. */
  lemma FreshClientFavorsBaseline(c: RouteServerClient, key: string)
    requires c.routingKeys == {}
    ensures c.ShouldProcess(key) <==> c.sandboxName == ""
  {
  }

  /** With the same keys, a sandbox worker and the baseline decide oppositely on every key. */
  lemma SandboxAndBaselineComplementary(sandbox: RouteServerClient, baseline: RouteServerClient, key: string)
    requires sandbox.sandboxName != "" && baseline.sandboxName == ""
    requires sandbox.routingKeys == baseline.routingKeys
    ensures sandbox.ShouldProcess(key) != baseline.ShouldProcess(key)
  {
  }

  /**
   * As written, a sandbox worker rejects every task however long it runs,
   * while a correct pull of a listed key makes it accept that key.
   */
  method AsWrittenSandboxNeverAccepts(c: RouteServerClient, replies: seq<HttpReply>, key: string)
    returns (accepted: bool)
    requires c.sandboxName != "" && c.routingKeys == {}
    modifies c
    ensures !accepted
  {
    c.Run(SyncCalls(replies));
    SyncPullsNeverChangeKeys({}, replies);
    accepted := c.ShouldProcess(key);
  }

  /**
   * A concrete reply that shows the difference: listing the key "r1", it
   * gives the keys {"r1"} to the intended pull and nothing to the pull as
   * written.
   */
  lemma AwaitingSyncResponseLosesRules()
    ensures var reply := Reply(200, Some(JObj(map["routingRules" := JArr([JObj(map["routingKey" := JStr("r1")])])])));
      && KeysOfCall(AwaitableGet(reply)) == Some({JStr("r1")})
      && KeysOfCall(SyncResponse(reply)).None?
  {
    var rule := JObj(map["routingKey" := JStr("r1")]);
    assert "routingKey" in rule.fields;
    assert RuleKeyOf(rule) == Some(JStr("r1"));
    var rules := [rule];
    assert rules[..0] == [];
    var init := KeysOfRuleList(rules[..0]);
    assert init == Some({});
    assert KeysOfRuleList(rules) == Some({} + {JStr("r1")});
    assert {} + {JStr("r1")} == {JStr("r1")};
    var data := JObj(map["routingRules" := JArr(rules)]);
    assert "routingRules" in data.fields;
    assert KeysOfBody(data) == KeysOfRuleList(rules);
  }
}
