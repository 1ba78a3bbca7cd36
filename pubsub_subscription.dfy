/**
 * How the Pub/Sub subscriber names its subscription and decides whether to
 * create it. Each sandbox consumes through its own subscription, named
 * after the shared group with the sandbox name appended, so every sandbox
 * and the baseline receive their own copy of each message and then filter
 * it with the routing rule.
 */
module PubSubSubscription {
  import opened Wire
  import opened Text

  /** The consumer group every subscriber starts from. */
  const GroupId := "pubsub-grp"

  /** The group for this workload: the argument, suffixed with "-" and the sandbox name in a sandbox. */
  function SignadotConsumerGroup(sandboxName: string, groupId: string): (g: string)
    ensures sandboxName == "" ==> g == groupId
    ensures sandboxName != "" ==> g == groupId + "-" + sandboxName
    ensures groupId <= g
    ensures |g| == if sandboxName == "" then |groupId| else |groupId| + 1 + |sandboxName|
  {
    if sandboxName != "" then groupId + "-" + sandboxName else groupId
  }

  /** The subscription this workload listens on. */
  function SubscriptionName(sandboxName: string): string {
    SignadotConsumerGroup(sandboxName, GroupId)
  }

  /**
   * Distinct workloads listen on distinct subscriptions: two different
   * sandbox names never share one, and no sandbox shares the baseline's.
   */
  lemma SubscriptionsAreDistinct(s1: string, s2: string)
    requires s1 != s2
    ensures SubscriptionName(s1) != SubscriptionName(s2)
  {
    var g1, g2 := SubscriptionName(s1), SubscriptionName(s2);
    if s1 != "" && s2 != "" {
      assert g1[|GroupId| + 1..] == s1;
      assert g2[|GroupId| + 1..] == s2;
    }
  }

  /** Whether any listed subscription's full name ends in the segment `subscriptionName`. */
  function SubscriptionExists(listed: seq<string>, subscriptionName: string): (found: bool)
    ensures found <==> exists i :: 0 <= i < |listed| && LastSegment(listed[i], '/') == subscriptionName
  {
    if listed == [] then false
    else if LastSegment(listed[0], '/') == subscriptionName then true
    else
      assert forall i :: 1 <= i < |listed| ==> listed[i] == listed[1..][i - 1];
      SubscriptionExists(listed[1..], subscriptionName)
  }

  /**
   * A subscription listed under its full resource path
   * (".../subscriptions/<name>") is found by its short name.
   */
  lemma FullPathIsFound(listed: seq<string>, i: nat, dir: string, subscriptionName: string)
    requires '/' !in subscriptionName
    requires i < |listed| && listed[i] == dir + "/" + subscriptionName
    ensures SubscriptionExists(listed, subscriptionName)
  {
    LastSegmentOfPath(dir, '/', subscriptionName);
  }

  /** How the subscription step ended. */
  datatype SubscriptionSetup =
    | Reused(name: string)    // an existing subscription is listened to
    | Created(name: string)   // a new subscription was created and is listened to
    | NotListening            // listing failed, or creating returned nothing

  /**
   * The subscription step of the start-up. `listed` is the listing of the
   * topic's subscriptions (None when it failed; the failure is logged) and
   * `created` whether creating one succeeded (a failed create is logged
   * and yields no subscription). Creating is attempted only when no listed
   * subscription has this workload's name. The topic step before it only
   * logs, so it has no bearing here.
   */
  function InitializeSubscription(sandboxName: string, listed: Option<seq<string>>, created: bool)
    : (r: (SubscriptionSetup, bool))
    ensures var (setup, createCalled) := r;
      && (createCalled <==> listed.Some? && !SubscriptionExists(listed.value, SubscriptionName(sandboxName)))
      && (setup.Reused? <==> listed.Some? && SubscriptionExists(listed.value, SubscriptionName(sandboxName)))
      && (setup.Created? <==> createCalled && created)
      && (!setup.NotListening? ==> setup.name == SubscriptionName(sandboxName))
  {
    var subscriptionName := SubscriptionName(sandboxName);
    match listed
    case None => (NotListening, false)
    case Some(names) =>
      if !SubscriptionExists(names, subscriptionName) then
        (if created then Created(subscriptionName) else NotListening, true)
      else
        (Reused(subscriptionName), false)
  }
}
