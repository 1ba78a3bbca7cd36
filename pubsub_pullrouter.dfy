/**
 * The routing client of the Pub/Sub subscriber: a cached JavaScript Set of
 * routing keys, absent until the first successful load and overwritten by
 * each later one, and the admission rule over it. Keys are JavaScript
 * values, so a rule without a routingKey contributes `undefined` and one
 * with a null routingKey contributes `null`; nothing is filtered.
 */
module PubSubPullRouter {
  import opened Wire
  import opened RouteQuery

  /** A JavaScript value read from parsed JSON: `undefined` for a missing property. */
  datatype JsValue = Undefined | Defined(v: Json)

  /** `x.routingKey` for a value x other than null. */
  function RoutingKeyProperty(x: Json): (k: JsValue)
    ensures x.JObj? && "routingKey" in x.fields ==> k == Defined(x.fields["routingKey"])
    ensures !(x.JObj? && "routingKey" in x.fields) ==> k == Undefined
  {
    if x.JObj? && "routingKey" in x.fields then Defined(x.fields["routingKey"]) else Undefined
  }

  /**
   * The values `rules[i]` that `for (var i in rules)` visits: an array's
   * elements, an object's member values, a string's one-character strings;
   * null, numbers and booleans have no enumerable properties.
   */
  function ForInValues(rules: Json): (vs: set<Json>)
    ensures rules.JArr? ==> forall x :: x in vs <==> x in rules.elems
    ensures rules.JObj? ==> forall x :: x in vs <==> x in rules.fields.Values
    ensures rules.JStr? ==> forall x :: x in vs <==> exists i :: 0 <= i < |rules.s| && x == JStr([rules.s[i]])
    ensures rules.JNull? || rules.JBool? || rules.JInt? ==> vs == {}
  {
    match rules
    case JArr(elems) => set x | x in elems
    case JObj(fields) => fields.Values
    case JStr(s) =>
      var vs := set c | c in s :: JStr([c]);
      assert s != [] ==> JStr([s[0]]) in vs;
      vs
    case _ => {}
  }

  /**
   * The Set the loop builds from the routing rules, or None when it throws:
   * reading `.routingKey` of a null rule raises a TypeError.
   */
  function KeysOfRules(rules: Json): (r: Option<set<JsValue>>)
    ensures r.None? <==> JNull in ForInValues(rules)
    ensures r.Some? ==> forall k :: k in r.value <==> exists x :: x in ForInValues(rules) && RoutingKeyProperty(x) == k
  {
    var vs := ForInValues(rules);
    if JNull in vs then None else Some(set x | x in vs :: RoutingKeyProperty(x))
  }

  /** Moving one rule from the remaining to the visited ones adds its key to the Set. */
  lemma VisitOne(visited: set<Json>, remaining: set<Json>, rule: Json)
    requires rule in remaining && visited !! remaining
    ensures (visited + {rule}) + (remaining - {rule}) == visited + remaining
    ensures (visited + {rule}) !! (remaining - {rule})
    ensures (set x | x in visited + {rule} :: RoutingKeyProperty(x))
      == (set x | x in visited :: RoutingKeyProperty(x)) + {RoutingKeyProperty(rule)}
  {
  }

  /**
   * The Set a parsed body yields, or None when reading it throws. A null
   * body throws on the property read; any other body without routingRules
   * (an object lacking it, an array, a string, a number) yields the empty
   * Set.
   */
  function KeysOfBody(jsonData: Json): (r: Option<set<JsValue>>)
    ensures jsonData.JNull? ==> r.None?
    ensures !jsonData.JNull? && !(jsonData.JObj? && "routingRules" in jsonData.fields) ==> r == Some({})
    ensures jsonData.JObj? && "routingRules" in jsonData.fields ==> r == KeysOfRules(jsonData.fields["routingRules"])
  {
    match jsonData
    case JNull => None
    case JObj(fields) => if "routingRules" in fields then KeysOfRules(fields["routingRules"]) else Some({})
    case _ => Some({})
  }

  /**
   * Whether converting a parsed JSON value to a string throws, as
   * `Array.prototype.join` converts each element. An object with its own
   * `toString` member (never callable in parsed JSON) has no usable
   * conversion: neither that member nor the inherited `valueOf` yields a
   * primitive. An array joins its elements, so it throws when one of them
   * does. Every other value converts.
   */
  predicate ToStringThrows(v: Json) {
    match v
    case JObj(fields) => "toString" in fields
    case JArr(elems) => exists i :: 0 <= i < |elems| && ToStringThrows(elems[i])
    case _ => false
  }

  /** Whether `Array.from(keys).join(', ')` throws; `undefined` and `null` join as "". */
  predicate JoinThrows(keys: set<JsValue>) {
    exists k :: k in keys && k.Defined? && ToStringThrows(k.v)
  }

  /** Whether a load from this reply stores a Set: the body is read in full and its keys can be logged. */
  predicate Stored(reply: HttpReply) {
    && reply.Reply? && reply.body.Some? && KeysOfBody(reply.body.value).Some?
    && !JoinThrows(KeysOfBody(reply.body.value).value)
  }

  /** Keys that are strings, numbers, booleans, null or undefined are always logged. */
  lemma PrimitiveKeysAreLogged(keys: set<JsValue>)
    requires forall k :: k in keys && k.Defined? ==> !k.v.JObj? && !k.v.JArr?
    ensures !JoinThrows(keys)
  {
  }

  /**
   * A rule whose routingKey is an object with a `toString` member: the Set
   * is built, but logging it throws, so the load stores nothing.
   */
  lemma ToStringMemberBlocksLoad()
    ensures var key := JObj(map["toString" := JInt(1)]);
      var reply := Reply(200, Some(JObj(map["routingRules" := JArr([JObj(map["routingKey" := key])])])));
      && KeysOfBody(reply.body.value).Some?
      && Defined(key) in KeysOfBody(reply.body.value).value
      && !Stored(reply)
  {
    var rule := JObj(map["routingKey" := JObj(map["toString" := JInt(1)])]);
    assert rule in ForInValues(JArr([rule]));
    assert RoutingKeyProperty(rule) == Defined(JObj(map["toString" := JInt(1)]));
  }

  /** A rule lacking routingKey adds `undefined`, and a null routingKey adds `null`. */
  lemma NoKeysAreFiltered(rules: seq<Json>, i: nat)
    requires i < |rules| && rules[i].JObj? && JNull !in rules
    ensures var keys := KeysOfRules(JArr(rules));
      && keys.Some?
      && ("routingKey" !in rules[i].fields ==> Undefined in keys.value)
      && ("routingKey" in rules[i].fields && rules[i].fields["routingKey"] == JNull ==> Defined(JNull) in keys.value)
  {
    assert rules[i] in ForInValues(JArr(rules));
  }

  class PullRouter {
    const routeServerAddr: string
    const baselineKind: string
    const baselineNamespace: string
    const baselineName: string
    const sandboxName: string
    /** The cache's `routingKeys` entry: None until the first successful load. */
    var routingKeys: Option<set<JsValue>>

    /** The module loads with its configuration and an empty cache. */
    constructor (routeServerAddr: string, baselineKind: string, baselineNamespace: string,
                 baselineName: string, sandboxName: string)
      ensures this.routeServerAddr == routeServerAddr && this.sandboxName == sandboxName
      ensures this.baselineKind == baselineKind && this.baselineNamespace == baselineNamespace
      ensures this.baselineName == baselineName
      ensures routingKeys.None?
    {
      this.routeServerAddr := routeServerAddr;
      this.baselineKind := baselineKind;
      this.baselineNamespace := baselineNamespace;
      this.baselineName := baselineName;
      this.sandboxName := sandboxName;
      routingKeys := None;
    }

    /** The route server URL, before encoding. */
    function RouteServerUrl(): (url: Url)
      ensures url.scheme == "http" && url.host == routeServerAddr && url.path == RoutingRulesPath
      ensures Lookup(url.query, "baselineKind") == Some(baselineKind)
      ensures Lookup(url.query, "baselineNamespace") == Some(baselineNamespace)
      ensures Lookup(url.query, "baselineName") == Some(baselineName)
      ensures Lookup(url.query, "destinationSandboxName") ==
        if sandboxName == "" then None else Some(sandboxName)
      ensures |url.query| == if sandboxName == "" then 3 else 4
      ensures url.query[..3] ==
        [("baselineKind", baselineKind), ("baselineNamespace", baselineNamespace), ("baselineName", baselineName)]
    {
      QueryNamesSandboxOnlyForSandbox(baselineKind, baselineNamespace, baselineName, sandboxName);
      Url("http", routeServerAddr, RoutingRulesPath,
          RoutingRulesQuery(baselineKind, baselineNamespace, baselineName, sandboxName))
    }

    /**
     * Whether to process a message with this routing key. A sandbox takes
     * exactly the keys in the cached Set and throws while there is none;
     * the baseline takes exactly the others, and everything before the
     * first load.
     */
    function ShouldProcess(routingKey: JsValue): (r: Result<bool>)
      reads this
      ensures sandboxName != "" ==> (r.Ok? <==> routingKeys.Some?)
      ensures sandboxName != "" && routingKeys.Some? ==> (r.value <==> routingKey in routingKeys.value)
      ensures sandboxName == "" ==> r.Ok?
      ensures sandboxName == "" ==> (r.value <==> routingKeys.None? || routingKey !in routingKeys.value)
    {
      if sandboxName != "" then
        if routingKeys.None? then Err("Cannot read properties of undefined (reading 'has')")
        else Ok(routingKey in routingKeys.value)
      else
        Ok(!(routingKeys.Some? && routingKey in routingKeys.value))
    }

    /**
     * One load of the routes from a reply. The Set is built rule by rule,
     * logged, and stored only when the whole body was read and logged; a
     * request error, a body that is not JSON, a throw while reading it or
     * a throw while logging the keys keeps the cache. The status code is
     * not looked at.
     */
    method GetRoutes(reply: HttpReply)
      modifies this`routingKeys
      ensures Stored(reply) ==> routingKeys == KeysOfBody(reply.body.value)
      ensures !Stored(reply) ==> routingKeys == old(routingKeys)
    {
      if reply.TransportError? {
        return;  // the request error is logged
      }
      if reply.body.None? {
        return;  // JSON.parse threw; the error is logged
      }
      var jsonData := reply.body.value;
      if jsonData.JNull? {
        return;  // reading a property of null threw
      }
      var keys: set<JsValue> := {};
      if jsonData.JObj? && "routingRules" in jsonData.fields {
        var rules := jsonData.fields["routingRules"];
        var remaining := ForInValues(rules);
        ghost var visited: set<Json> := {};
        while remaining != {}
          invariant visited + remaining == ForInValues(rules) && visited !! remaining
          invariant JNull !in visited
          invariant keys == set x | x in visited :: RoutingKeyProperty(x)
          invariant routingKeys == old(routingKeys)
          decreases |remaining|
        {
          var rule :| rule in remaining;
          if rule.JNull? {
            return;  // `.routingKey` of null threw; the error is logged
          }
          VisitOne(visited, remaining, rule);
          keys := keys + {RoutingKeyProperty(rule)};
          visited := visited + {rule};
          remaining := remaining - {rule};
        }
      }
      if JoinThrows(keys) {
        return;  // logging the keys threw; the error is logged
      }
      routingKeys := Some(keys);
    }
  }

  /** Before the first load the baseline takes every message and a sandbox throws on every one. */
  lemma UnloadedCache(r: PullRouter, key: JsValue)
    requires r.routingKeys.None?
    ensures r.sandboxName == "" ==> r.ShouldProcess(key) == Ok(true)
    ensures r.sandboxName != "" ==> r.ShouldProcess(key).Err?
  {
  }

  /** With the same loaded Set, a sandbox and the baseline decide oppositely on every key. */
  lemma SandboxAndBaselineComplementary(sandbox: PullRouter, baseline: PullRouter, key: JsValue)
    requires sandbox.sandboxName != "" && baseline.sandboxName == ""
    requires sandbox.routingKeys.Some? && sandbox.routingKeys == baseline.routingKeys
    ensures sandbox.ShouldProcess(key).Ok? && baseline.ShouldProcess(key).Ok?
    ensures sandbox.ShouldProcess(key).value != baseline.ShouldProcess(key).value
  {
  }
}
