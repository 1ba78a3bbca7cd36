/**
 * How the implementations relate. On a well-formed rule list, the three
 * route parsers agree on the keys. They part ways on a rule without a
 * routingKey. The two event collectors part ways on a scan that takes more
 * than one batch.
 */
module Agreement {
  import opened Wire
  import opened RedisEvents
  import TutorialRouting
  import PlatformRouteServer
  import PubSubPullRouter
  import PubSubEvents
  import KafkaEvents

  /** A route-server body with these rules. */
  function RulesBody(rules: seq<Json>): Json {
    JObj(map["routingRules" := JArr(rules)])
  }

  /** Every rule is an object whose routingKey is a string. */
  predicate WellFormed(rules: seq<Json>) {
    forall i :: 0 <= i < |rules| ==>
      rules[i].JObj? && "routingKey" in rules[i].fields && rules[i].fields["routingKey"].JStr?
  }

  /** Some rule has this routingKey. */
  predicate Lists(rules: seq<Json>, key: string) {
    exists i :: 0 <= i < |rules| && rules[i].JObj? && "routingKey" in rules[i].fields
      && rules[i].fields["routingKey"] == JStr(key)
  }

  lemma TutorialLoads(rules: seq<Json>, key: string)
    requires WellFormed(rules)
    ensures key in TutorialRouting.RoutingKeysOf(RulesBody(rules)) <==> Lists(rules, key)
  {
    assert TutorialRouting.RulesOf(RulesBody(rules)) == rules;
    if key in TutorialRouting.RoutingKeysOf(RulesBody(rules)) {
      var i :| 0 <= i < |rules| && TutorialRouting.RuleKey(rules[i]) == Some(key);
      assert rules[i].fields["routingKey"] == JStr(key);
    }
    if Lists(rules, key) {
      var i :| 0 <= i < |rules| && rules[i].JObj? && "routingKey" in rules[i].fields
        && rules[i].fields["routingKey"] == JStr(key);
      assert TutorialRouting.RuleKey(rules[i]) == Some(key);
    }
  }

  lemma PlatformLoads(rules: seq<Json>, key: string)
    requires WellFormed(rules)
    ensures PlatformRouteServer.KeysOfBody(RulesBody(rules)).Some?
    ensures JStr(key) in PlatformRouteServer.KeysOfBody(RulesBody(rules)).value <==> Lists(rules, key)
  {
    assert PlatformRouteServer.KeysOfBody(RulesBody(rules)) == PlatformRouteServer.KeysOfRuleList(rules);
    assert forall i :: 0 <= i < |rules| ==> PlatformRouteServer.RuleKeyOf(rules[i]).Some?;
    if Lists(rules, key) {
      var i :| 0 <= i < |rules| && rules[i].JObj? && "routingKey" in rules[i].fields
        && rules[i].fields["routingKey"] == JStr(key);
      assert PlatformRouteServer.RuleKeyOf(rules[i]) == Some(JStr(key));
    }
  }

  lemma PubSubLoads(rules: seq<Json>, key: string)
    requires WellFormed(rules)
    ensures PubSubPullRouter.KeysOfBody(RulesBody(rules)).Some?
    ensures PubSubPullRouter.Defined(JStr(key)) in PubSubPullRouter.KeysOfBody(RulesBody(rules)).value
      <==> Lists(rules, key)
    ensures !PubSubPullRouter.JoinThrows(PubSubPullRouter.KeysOfBody(RulesBody(rules)).value)
  {
    var values := PubSubPullRouter.ForInValues(JArr(rules));
    var keys := PubSubPullRouter.KeysOfBody(RulesBody(rules)).value;
    if PubSubPullRouter.Defined(JStr(key)) in keys {
      var x :| x in values && PubSubPullRouter.RoutingKeyProperty(x) == PubSubPullRouter.Defined(JStr(key));
      var i :| 0 <= i < |rules| && rules[i] == x;
      assert rules[i].fields["routingKey"] == JStr(key);
    }
    if Lists(rules, key) {
      var i :| 0 <= i < |rules| && rules[i].JObj? && "routingKey" in rules[i].fields
        && rules[i].fields["routingKey"] == JStr(key);
      assert rules[i] in values;
    }
    forall k | k in keys && k.Defined?
      ensures !k.v.JObj? && !k.v.JArr?
    {
      var x :| x in values && PubSubPullRouter.RoutingKeyProperty(x) == k;
      var i :| 0 <= i < |rules| && rules[i] == x;
    }
    PubSubPullRouter.PrimitiveKeysAreLogged(keys);
  }

  /**
   * On rules that all carry a string key, the tutorial client, the platform
   * client and the Pub/Sub router load the same keys: each key is listed by
   * one exactly when it is listed by the others. The Pub/Sub router can log
   * these keys, so its load stores them.
   */
  lemma WellFormedRulesAgree(rules: seq<Json>, key: string)
    requires WellFormed(rules)
    ensures var body := RulesBody(rules);
      && PlatformRouteServer.KeysOfBody(body).Some?
      && PubSubPullRouter.KeysOfBody(body).Some?
      && !PubSubPullRouter.JoinThrows(PubSubPullRouter.KeysOfBody(body).value)
      && (key in TutorialRouting.RoutingKeysOf(body) <==> JStr(key) in PlatformRouteServer.KeysOfBody(body).value)
      && (key in TutorialRouting.RoutingKeysOf(body) <==>
          PubSubPullRouter.Defined(JStr(key)) in PubSubPullRouter.KeysOfBody(body).value)
  {
    TutorialLoads(rules, key);
    PlatformLoads(rules, key);
    PubSubLoads(rules, key);
  }

  /**
   * Three workers in the same role (all baseline, or all sandboxes) that
   * have loaded the same well-formed rules decide alike on every present
   * routing key.
   */
  lemma SameRulesSameDecision(rules: seq<Json>, tutorial: TutorialRouting.RoutesApiClient,
                              platform: PlatformRouteServer.RouteServerClient,
                              pubsub: PubSubPullRouter.PullRouter, key: string)
    requires WellFormed(rules)
    requires tutorial.routingKeysCache == TutorialRouting.RoutingKeysOf(RulesBody(rules))
    requires PlatformRouteServer.KeysOfBody(RulesBody(rules)) == Some(platform.routingKeys)
    requires pubsub.routingKeys == PubSubPullRouter.KeysOfBody(RulesBody(rules))
    requires (tutorial.sandboxName == "") == (platform.sandboxName == "") == (pubsub.sandboxName == "")
    ensures pubsub.ShouldProcess(PubSubPullRouter.Defined(JStr(key))).Ok?
    ensures tutorial.ShouldProcess(Some(key)) == platform.ShouldProcess(key)
      == pubsub.ShouldProcess(PubSubPullRouter.Defined(JStr(key))).value
  {
    WellFormedRulesAgree(rules, key);
  }

  /**
   * A rule without a routingKey: the tutorial client skips it, the platform
   * client's pull fails on it and keeps its previous keys, and the Pub/Sub
   * router loads `undefined`, so a Pub/Sub sandbox takes every message
   * that carries no routing key.
   */
  lemma RuleWithoutKeyDiverges(other: seq<Json>)
    requires WellFormed(other)
    ensures var rules := other + [JObj(map[])];
      && TutorialRouting.RoutingKeysOf(RulesBody(rules)) == TutorialRouting.RoutingKeysOf(RulesBody(other))
      && PlatformRouteServer.KeysOfBody(RulesBody(rules)).None?
      && PubSubPullRouter.KeysOfBody(RulesBody(rules)).Some?
      && PubSubPullRouter.Undefined in PubSubPullRouter.KeysOfBody(RulesBody(rules)).value
  {
    var rules := other + [JObj(map[])];
    assert TutorialRouting.RulesOf(RulesBody(rules)) == rules;
    assert TutorialRouting.RulesOf(RulesBody(other)) == other;
    assert rules[..|rules| - 1] == other;
    assert PlatformRouteServer.KeysOfBody(RulesBody(rules)) == PlatformRouteServer.KeysOfRuleList(rules);
    PlatformRouteServer.RuleWithoutKeyFailsPull(rules, |other|);
    PubSubPullRouter.NoKeysAreFiltered(rules, |other|);
  }

  /** The replies of a scan of two batches holding one record each. */
  function TwoBatches(a: StoredEvent, b: StoredEvent): seq<ScanReply> {
    [Scanned("17", [EventKey(1)], MgetValues([Value(a)])),
     Scanned("0", [EventKey(2)], MgetValues([Value(b)]))]
  }

  lemma TwoBatchSteps(a: StoredEvent, b: StoredEvent)
    ensures StepOf(TwoBatches(a, b)[0]) == StepOk("17", [a])
    ensures StepOf(TwoBatches(a, b)[1..][0]) == StepOk("0", [b])
    ensures TwoBatches(a, b)[1..][1..] == []
  {
    assert BatchPrefix([Value(a)], 1) == [a];
    assert BatchPrefix([Value(b)], 1) == [b];
  }

  /**
   * A scan of two batches, each holding one event newer than the cursor:
   * the Pub/Sub collector reports both events, in timestamp order, and the
   * larger id.
   */
  lemma PubSubReportsBothBatches(first: Event, second: Event)
    requires first.timestamp < second.timestamp
    ensures PubSubEvents.Collect(None, TwoBatches(StoredEvent(1, first), StoredEvent(2, second)), [])
      == Done([first, second], 2)
  {
    var a, b := StoredEvent(1, first), StoredEvent(2, second);
    var replies := TwoBatches(a, b);
    TwoBatchSteps(a, b);
    PubSubEvents.CollectStep(None, replies, []);
    PubSubEvents.CollectStep(None, replies[1..], [a]);
    assert [] + [a] == [a] && [a] + [b] == [a, b];
    assert [a, b][..1] == [a];
    assert Kept([a, b], None) == [a, b];
    assert Bodies([a, b]) == [first, second];
    assert [first, second][..1] == [first] && [first][..0] == [];
    assert SortByTimestamp([first]) == [first];
    assert Insert([first], second) == [first, second];
    assert MaxId([a], 0) == 1 && MaxId([a, b], 0) == 2;
    assert PubSubEvents.Collect(None, replies[1..], [a]) == PubSubEvents.Finish([a, b]);
  }

  /** A lone record newer than no cursor is kept, and its id is the maximum above 0. */
  lemma SingleRecord(x: StoredEvent)
    ensures Kept([x], None) == [x] && Bodies([x]) == [x.body]
    ensures MaxId([x], 0) == if x.id > 0 then x.id else 0
  {
    assert [x][..0] == [];
  }

  /** A Kafka collection whose first reply ends the scan reports that batch. */
  lemma KafkaFinalBatch(eventsCursor: Option<int>, replies: seq<ScanReply>)
    requires replies != [] && StepOf(replies[0]).StepOk? && StepOf(replies[0]).newCursor == "0"
    ensures KafkaEvents.Collect(eventsCursor, replies)
      == KafkaEvents.Report(Kept(StepOf(replies[0]).batch, eventsCursor))
  {
  }

  /** On the same scan, the Kafka collector reports only the second batch's event. */
  lemma KafkaReportsLastBatchOnly(first: Event, second: Event)
    ensures KafkaEvents.Collect(None, TwoBatches(StoredEvent(1, first), StoredEvent(2, second)))
      == Done([second], 2)
  {
    var a, b := StoredEvent(1, first), StoredEvent(2, second);
    var replies := TwoBatches(a, b);
    TwoBatchSteps(a, b);
    assert replies == [replies[0]] + replies[1..];
    KafkaEvents.ContinuedBatchIsDropped(None, replies[0], replies[1..]);
    KafkaFinalBatch(None, replies[1..]);
    SingleRecord(b);
  }
}
