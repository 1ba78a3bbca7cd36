/**
 * The request every routing client sends to the route server: the fixed
 * routing-rules path and the query that names the baseline workload and,
 * for a sandbox worker, the sandbox. Query encoding is left to the HTTP
 * libraries; the query is kept as its ordered list of name/value pairs.
 */
module RouteQuery {
  import opened Wire

  const RoutingRulesPath := "/api/v1/workloads/routing-rules"

  type Query = seq<(string, string)>

  /** A request URL before encoding. */
  datatype Url = Url(scheme: string, host: string, path: string, query: Query)

  /**
   * The three baseline parameters in order, then destinationSandboxName
   * when, and only when, the worker runs in a sandbox (non-empty name).
   */
  function RoutingRulesQuery(kind: string, namespace: string, name: string, sandboxName: string): (q: Query)
    ensures |q| == if sandboxName == "" then 3 else 4
    ensures q[..3] == [("baselineKind", kind), ("baselineNamespace", namespace), ("baselineName", name)]
  {
    var baseline := [("baselineKind", kind), ("baselineNamespace", namespace), ("baselineName", name)];
    if sandboxName != "" then
      var q := baseline + [("destinationSandboxName", sandboxName)];
      assert q[..3] == baseline;
      q
    else baseline
  }

  /** The value of the first parameter called `key`, as a server reads it. */
  function Lookup(q: Query, key: string): (r: Option<string>)
    ensures r.None? <==> forall i :: 0 <= i < |q| ==> q[i].0 != key
    ensures r.Some? ==> exists i ::
      && 0 <= i < |q| && q[i] == (key, r.value)
      && forall j :: 0 <= j < i ==> q[j].0 != key
  {
    if q == [] then None
    else if q[0].0 == key then Some(q[0].1)
    else
      var r := Lookup(q[1..], key);
      if r.Some? then
        var i :| 0 <= i < |q[1..]| && q[1..][i] == (key, r.value) && forall j :: 0 <= j < i ==> q[1..][j].0 != key;
        assert forall j :: 1 <= j < i + 1 ==> q[j] == q[1..][j - 1];
        assert q[i + 1] == (key, r.value);
        r
      else r
  }

  /**
   * The route server reads back exactly the configured baseline, and a
   * sandbox name if and only if the worker has one.
   */
  lemma QueryNamesSandboxOnlyForSandbox(kind: string, namespace: string, name: string, sandboxName: string)
    ensures var q := RoutingRulesQuery(kind, namespace, name, sandboxName);
      && Lookup(q, "baselineKind") == Some(kind)
      && Lookup(q, "baselineNamespace") == Some(namespace)
      && Lookup(q, "baselineName") == Some(name)
      && Lookup(q, "destinationSandboxName") == (if sandboxName == "" then None else Some(sandboxName))
  {
    var tail: Query := if sandboxName == "" then [] else [("destinationSandboxName", sandboxName)];
    assert RoutingRulesQuery(kind, namespace, name, sandboxName)
      == [("baselineKind", kind), ("baselineNamespace", namespace), ("baselineName", name)] + tail;
    LookupBaseline(kind, namespace, name, tail, "baselineKind");
    LookupBaseline(kind, namespace, name, tail, "baselineNamespace");
    LookupBaseline(kind, namespace, name, tail, "baselineName");
    LookupBaseline(kind, namespace, name, tail, "destinationSandboxName");
    if sandboxName != "" {
      LookupCons(("destinationSandboxName", sandboxName), [], "destinationSandboxName");
    }
  }

  lemma LookupCons(p: (string, string), rest: Query, key: string)
    ensures Lookup([p] + rest, key) == if p.0 == key then Some(p.1) else Lookup(rest, key)
  {
    assert ([p] + rest)[1..] == rest;
  }

  /** The three baseline parameters answer for their names and pass any other on. */
  lemma LookupBaseline(kind: string, namespace: string, name: string, tail: Query, key: string)
    ensures Lookup([("baselineKind", kind), ("baselineNamespace", namespace), ("baselineName", name)] + tail, key)
      == if key == "baselineKind" then Some(kind)
         else if key == "baselineNamespace" then Some(namespace)
         else if key == "baselineName" then Some(name)
         else Lookup(tail, key)
  {
    var q3 := [("baselineName", name)] + tail;
    var q2 := [("baselineNamespace", namespace)] + q3;
    assert [("baselineKind", kind)] + q2
      == [("baselineKind", kind), ("baselineNamespace", namespace), ("baselineName", name)] + tail;
    LookupCons(("baselineKind", kind), q2, key);
    LookupCons(("baselineNamespace", namespace), q3, key);
    LookupCons(("baselineName", name), tail, key);
  }
}
