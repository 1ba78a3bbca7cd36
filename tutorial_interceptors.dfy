/**
 * The admission gates of the Temporal tutorial worker. A workflow task's
 * routing key comes from its baggage; an activity task's is recovered from
 * the serialized trace context in its `_tracer-data` header. Each gate asks
 * the routing client, then either raises without calling the next
 * interceptor or returns what the next interceptor returns.
 */
module TutorialInterceptors {
  import opened Wire
  import opened Text
  import opened Tasks
  import opened TutorialRouting

  // ---------------------------------------------------------------------
  // Reading the routing key out of the activity headers
  // ---------------------------------------------------------------------

  /** The header that carries the serialized trace context. */
  const TracerHeader := "_tracer-data"

  /** The start of a baggage item that carries the routing key. */
  const RoutingItemPrefix := "sd-routing-key="

  /** A header payload: its bytes decoded as JSON, or None when they are not JSON. */
  datatype Payload = Payload(data: Option<Json>)

  /** An item of the baggage list carries the routing key when, stripped, it starts with the prefix. */
  predicate IsRoutingItem(item: string) {
    RoutingItemPrefix <= Strip(item)
  }

  lemma RoutingItemHasEquals(item: string)
    requires IsRoutingItem(item)
    ensures '=' in item
  {
    assert Strip(item)[14] == '=';
    StripKeeps(item, '=');
  }

  /** The value of a routing item: everything after its first '=' (not stripped). */
  function ItemValue(item: string): string
    requires IsRoutingItem(item)
  {
    RoutingItemHasEquals(item);
    AfterFirst(item, '=')
  }

  /** The position of the first routing item of a baggage list, or its length when there is none. */
  function FirstRoutingIndex(items: seq<string>): (k: nat)
    ensures k <= |items|
    ensures forall j :: 0 <= j < k ==> !IsRoutingItem(items[j])
    ensures k < |items| ==> IsRoutingItem(items[k])
  {
    if items == [] then 0
    else if IsRoutingItem(items[0]) then 0
    else 1 + FirstRoutingIndex(items[1..])
  }

  /**
   * The value of the first routing item of a baggage list; later routing
   * items are ignored.
   */
  function FirstRoutingValue(items: seq<string>): (r: Option<string>)
    ensures r.None? <==> forall i :: 0 <= i < |items| ==> !IsRoutingItem(items[i])
    ensures r.Some? ==> var k := FirstRoutingIndex(items);
      k < |items| && r.value == ItemValue(items[k])
  {
    var k := FirstRoutingIndex(items);
    if k == |items| then None else Some(ItemValue(items[k]))
  }

  /**
   * The baggage text of the `_tracer-data` header: present only when the
   * header exists, its bytes decode to a JSON object, and that object's
   * `baggage` member is a string.
   */
  function BaggageText(headers: map<string, Payload>): Option<string>
  {
    if TracerHeader in headers then
      match headers[TracerHeader].data
      case Some(JObj(fields)) =>
        if "baggage" in fields && fields["baggage"].JStr? then Some(fields["baggage"].s) else None
      case _ => None
    else None
  }

  /** The routing key in a baggage text: the first routing item's value, or "" when there is none. */
  function RoutingKeyOfBaggage(baggage: string): (key: string)
    ensures var items := Split(baggage, ',');
      key == if FirstRoutingIndex(items) < |items| then ItemValue(items[FirstRoutingIndex(items)]) else ""
  {
    match FirstRoutingValue(Split(baggage, ','))
    case Some(v) => v
    case None => ""
  }

  /**
   * The activity's routing key. Every way the lookup can fail (no headers,
   * no `_tracer-data`, bytes that are not a JSON object, no string
   * `baggage`, no routing item) gives "", never an exception.
   */
  function ExtractRoutingKeyFromHeaders(headers: map<string, Payload>): (key: string)
    ensures BaggageText(headers).None? ==> key == ""
    ensures BaggageText(headers).Some? ==> key == RoutingKeyOfBaggage(BaggageText(headers).value)
  {
    match BaggageText(headers)
    case None => ""
    case Some(baggage) => RoutingKeyOfBaggage(baggage)
  }

  /**
   * An item made of whitespace, the prefix and a value carries that value,
   * trailing whitespace included (the item is not stripped before the
   * value is cut out).
   */
  lemma RoutingItemValue(lead: string, value: string)
    requires forall i :: 0 <= i < |lead| ==> IsPyWhitespace(lead[i])
    ensures IsRoutingItem(lead + RoutingItemPrefix + value)
    ensures ItemValue(lead + RoutingItemPrefix + value) == value
  {
    var item := lead + RoutingItemPrefix + value;
    PrefixedItemIsRoutingItem(lead, value);
    PrefixedItemEquals(lead, value);
    assert item[|lead| + 15..] == value;
  }

  lemma PrefixedItemIsRoutingItem(lead: string, value: string)
    requires forall i :: 0 <= i < |lead| ==> IsPyWhitespace(lead[i])
    ensures IsRoutingItem(lead + RoutingItemPrefix + value)
  {
    var rest := RoutingItemPrefix + value;
    assert rest[0] == 's';
    LStripSkips(lead, rest);
    AppendAssociates(lead, RoutingItemPrefix, value);
    RStripKeepsPrefix(RoutingItemPrefix, value);
  }

  lemma PrefixedItemEquals(lead: string, value: string)
    requires forall i :: 0 <= i < |lead| ==> IsPyWhitespace(lead[i])
    ensures IndexOf(lead + RoutingItemPrefix + value, '=') == |lead| + 14
  {
    var item := lead + RoutingItemPrefix + value;
    var j := |lead| + 14;
    assert item[..j] == lead + RoutingItemPrefix[..14];
    assert '=' !in RoutingItemPrefix[..14];
    assert '=' !in lead;
    assert item[j] == '=';
    IndexOfAt(item, '=', j);
  }

  lemma {:induction false} LStripSkips(lead: string, rest: string)
    requires forall i :: 0 <= i < |lead| ==> IsPyWhitespace(lead[i])
    requires rest != [] && !IsPyWhitespace(rest[0])
    ensures LStrip(lead + rest) == rest
  {
    if lead != [] {
      assert (lead + rest)[1..] == lead[1..] + rest;
      LStripSkips(lead[1..], rest);
    } else {
      assert lead + rest == rest;
    }
  }

  lemma RStripKeepsPrefix(p: string, v: string)
    requires p == RoutingItemPrefix
    ensures p <= RStrip(p + v)
  {
    var r := RStrip(p + v);
    assert (p + v)[|p| - 1] == '=';
    assert |r| >= |p|;
    assert r == (p + v)[..|r|];
  }

  /**
   * The first routing item wins: when the baggage holds a plain item and
   * then two routing items, the value of the earlier one is returned.
   */
  lemma FirstRoutingItemWins(other: string, first: string, second: string)
    requires ',' !in other && ',' !in first && ',' !in second
    requires !IsRoutingItem(other) && IsRoutingItem(first) && IsRoutingItem(second)
    ensures RoutingKeyOfBaggage(other + [','] + first + [','] + second) == ItemValue(first)
  {
    ThreeItems(other, first, second, other + [','] + first + [','] + second);
    SecondItemIsFirstRouting(other, first, second);
    KeyOfFirstRoutingItem(other + [','] + first + [','] + second, [other, first, second], 1);
  }

  lemma KeyOfFirstRoutingItem(baggage: string, items: seq<string>, k: nat)
    requires Split(baggage, ',') == items
    requires k < |items| && FirstRoutingIndex(items) == k
    ensures RoutingKeyOfBaggage(baggage) == ItemValue(items[k])
  {
  }

  lemma SecondItemIsFirstRouting(x: string, y: string, z: string)
    requires !IsRoutingItem(x) && IsRoutingItem(y)
    ensures FirstRoutingIndex([x, y, z]) == 1
  {
    assert [x, y, z][1..] == [y, z];
    assert FirstRoutingIndex([y, z]) == 0;
  }

  lemma ThreeItems(x: string, y: string, z: string, s: string)
    requires ',' !in x && ',' !in y && ',' !in z
    requires s == x + [','] + y + [','] + z
    ensures Split(s, ',') == [x, y, z]
  {
    assert [x, y, z][1..] == [y, z] && [y, z][1..] == [z];
    assert Join([y, z], ',') == y + [','] + z;
    assert Join([x, y, z], ',') == s;
    SplitJoin([x, y, z], ',');
  }

  // ---------------------------------------------------------------------
  // The gates
  // ---------------------------------------------------------------------

  /** How a worker names itself in log lines and rejection messages. */
  function WorkerIdent(sandboxName: string, taskQueue: string): (ident: string)
    ensures "sandbox=" <= ident
    ensures sandboxName == "" ==> ident == "sandbox=baseline task_queue=" + taskQueue
    ensures sandboxName != "" ==> ident == "sandbox=" + sandboxName + " task_queue=" + taskQueue
  {
    "sandbox=" + (if sandboxName == "" then "baseline" else sandboxName) + " task_queue=" + taskQueue
  }

  /**
   * The interceptor installed in the worker: the routing client (null when
   * none is configured), and this worker's sandbox name and task queue.
   */
  datatype SelectiveTaskInterceptor =
    SelectiveTaskInterceptor(routesClient: RoutesApiClient?, sandboxName: string, taskQueue: string)
  {
    function Ident(): string {
      WorkerIdent(sandboxName, taskQueue)
    }
  }

  /** Whether the gate lets a task with this routing key through: always without a client. */
  predicate Admits(ic: SelectiveTaskInterceptor, routingKey: string)
    reads ic.routesClient
  {
    ic.routesClient == null || ic.routesClient.ShouldProcess(Some(routingKey))
  }

  /**
   * The workflow gate. The key comes from the baggage ("" when absent), so
   * the client is never asked about an absent key. A refused task raises
   * and `next` is not called; an admitted one returns `next`'s result.
   */
  function ExecuteWorkflow<I, R>(ic: SelectiveTaskInterceptor, baggage: map<string, string>,
                                 input: I, next: I -> R): (o: GateOutcome<R>)
    reads ic.routesClient
    ensures o.Delegated? <==> Admits(ic, BaggageRoutingKey(baggage))
    ensures o.Delegated? ==> o.result == next(input)
    ensures o.Raised? ==> o.error == PlainException(
      "Workflow/Worker cannot handle routing key: " + BaggageRoutingKey(baggage) + " - Worker: " + ic.Ident())
  {
    var routingKey := BaggageRoutingKey(baggage);
    var shouldProcess := !(ic.routesClient != null && !ic.routesClient.ShouldProcess(Some(routingKey)));
    if !shouldProcess then
      Raised(PlainException("Workflow/Worker cannot handle routing key: " + routingKey + " - Worker: " + ic.Ident()))
    else
      Delegated(next(input))
  }

  /** The activity gate: the same decision, with the key read from the headers. */
  function ExecuteActivity<I, R>(ic: SelectiveTaskInterceptor, headers: map<string, Payload>,
                                 input: I, next: I -> R): (o: GateOutcome<R>)
    reads ic.routesClient
    ensures o.Delegated? <==> Admits(ic, ExtractRoutingKeyFromHeaders(headers))
    ensures o.Delegated? ==> o.result == next(input)
    ensures o.Raised? ==> o.error == PlainException(
      "Activity/Worker cannot handle routing key: " + ExtractRoutingKeyFromHeaders(headers)
      + " - Worker: " + ic.Ident())
  {
    var routingKey := ExtractRoutingKeyFromHeaders(headers);
    var shouldProcess := !(ic.routesClient != null && !ic.routesClient.ShouldProcess(Some(routingKey)));
    if !shouldProcess then
      Raised(PlainException("Activity/Worker cannot handle routing key: " + routingKey + " - Worker: " + ic.Ident()))
    else
      Delegated(next(input))
  }

  /**
   * A task whose activity headers carry no usable routing key is treated
   * as carrying the key "": the baseline runs it unless "" is a listed key,
   * and a sandbox runs it only if "" is listed.
   */
  lemma MalformedHeadersActAsEmptyKey<I, R>(ic: SelectiveTaskInterceptor, headers: map<string, Payload>,
                                            input: I, next: I -> R)
    requires BaggageText(headers).None?
    requires ic.routesClient != null
    ensures ExecuteActivity(ic, headers, input, next).Delegated? <==>
      if ic.routesClient.sandboxName == "" then "" !in ic.routesClient.routingKeysCache
      else "" in ic.routesClient.routingKeysCache
  {
  }
}
