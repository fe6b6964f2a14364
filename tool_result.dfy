/**
 * The `/api/tool-result` route: result submissions from the browser, routed
 * either to the execution bridge (`source: "mcp_tool"`) or to the legacy
 * one-shot result map, and the two reads (the pending task list and the
 * legacy read-once lookup).
 */
module ToolResultRoute {
  import opened Wrappers
  import Json
  import CodeExecutor
  import Bridge

  /** A legacy result and when it was stored. */
  datatype LegacyEntry = LegacyEntry(result: Option<Json.Json>, timestamp: int)

  /** An HTTP reply: status code and JSON body. */
  datatype Response = Response(status: int, body: Json.Json)

  const FiveMinutes := 5 * 60 * 1000
  const McpSource := "mcp_tool"
  const PendingAction := "pending_executions"

  function Ok(): Response
  {
    Response(200, Json.Obj1("success", Json.JBool(true)))
  }

  function MissingId(): Response
  {
    Response(400, Json.Obj1("error", Json.JStr("correlationId is required")))
  }

  /**
   * The legacy map is keyed by the submitted correlation id as a JSON value:
   * a JavaScript `Map` keeps the number `5` and the string `"5"` apart, and a
   * read through the query string looks up a string.
   */
  type LegacyMap = map<Json.Json, LegacyEntry>

  /**
   * A submission the bridge takes: a readable `mcp_tool` body whose
   * correlation id is a non-empty string naming a registered task.  The
   * bridge's ids are strings, so `Map.get` finds no task under any other value.
   */
  predicate Delivers(body: Option<Json.Json>, pending: map<string, Bridge.PendingExecution>)
  {
    && !Unreadable(body)
    && var id := Json.Get(body.value, "correlationId");
    && id.Some? && id.value.JStr? && id.value.s != "" && id.value.s in pending
    && Json.Get(body.value, "source") == Some(Json.JStr(McpSource))
    && !Unreadable(Json.Get(body.value, "result"))
  }

  /** The legacy entries `cleanupOldResults` keeps. */
  function FreshLegacy(m: LegacyMap, now: int): (r: LegacyMap)
    ensures forall k :: k in r <==> k in m && now - m[k].timestamp <= FiveMinutes
    ensures forall k :: k in r ==> r[k] == m[k]
  {
    map k | k in m && now - m[k].timestamp <= FiveMinutes :: m[k]
  }

  /**
   * The `error` member as the bridge reads it: any present value other than
   * an object behaves as an error with no readable fields.
   */
  function ErrorOf(e: Option<Json.Json>): (r: Option<Bridge.ResultError>)
    ensures r.None? <==> e.None?
    ensures e.Some? && e.value.JObj? ==> r.value.message == Json.GetString(e.value, "message").GetOr("")
  {
    match e
    case None => None
    case Some(v) =>
      Some(Bridge.ResultError(
        Json.GetString(v, "type").GetOr(""),
        Json.GetString(v, "code"),
        Json.GetString(v, "message").GetOr(""),
        Json.GetString(v, "stackTrace")))
  }

  /** The `ExecutionResult` the route builds from the submitted `result`. */
  function ToExecutionResult(result: Json.Json, now: int): (r: Bridge.ExecutionResult)
    ensures r.success <==> Json.Get(result, "success").Some? && Json.Truthy(Json.Get(result, "success").value)
    ensures r.data == Json.Get(result, "data") && r.timestamp == now
  {
    var s := Json.Get(result, "success");
    Bridge.ExecutionResult(s.Some? && Json.Truthy(s.value), Json.Get(result, "data"), ErrorOf(Json.Get(result, "error")), now)
  }

  /** Reading a property of `undefined` or `null` throws. */
  predicate Unreadable(v: Option<Json.Json>)
  {
    v.None? || v.value.JNull?
  }

  /** One row of the pending listing: `{correlationId, host, code, description}`. */
  function ExecutionView(id: string, e: Bridge.PendingExecution): (r: Json.Json)
    ensures r.JObj?
  {
    var desc := if e.description.Some? then [Json.Member("description", Json.JStr(e.description.value))] else [];
    Json.JObj([Json.Member("correlationId", Json.JStr(id))]
      + ([Json.Member("host", Json.JStr(CodeExecutor.HostName(e.host)))]
      + ([Json.Member("code", Json.JStr(e.code))] + desc)))
  }

  /** A listing row reads back as the task's id, host, code and description. */
  lemma ExecutionViewFields(id: string, e: Bridge.PendingExecution)
    ensures var v := ExecutionView(id, e);
      && Json.GetString(v, "correlationId") == Some(id)
      && Json.GetString(v, "host") == Some(CodeExecutor.HostName(e.host))
      && Json.GetString(v, "code") == Some(e.code)
      && Json.GetString(v, "description") == e.description
  {
    ViewField(id, e, "correlationId");
    ViewField(id, e, "host");
    ViewField(id, e, "code");
    ViewField(id, e, "description");
  }

  lemma ViewField(id: string, e: Bridge.PendingExecution, key: string)
    ensures Json.Get(ExecutionView(id, e), key) ==
      if key == "correlationId" then Some(Json.JStr(id))
      else if key == "host" then Some(Json.JStr(CodeExecutor.HostName(e.host)))
      else if key == "code" then Some(Json.JStr(e.code))
      else if key == "description" && e.description.Some? then Some(Json.JStr(e.description.value))
      else None
  {
    var desc := if e.description.Some? then [Json.Member("description", Json.JStr(e.description.value))] else [];
    var m0 := Json.Member("correlationId", Json.JStr(id));
    var m1 := Json.Member("host", Json.JStr(CodeExecutor.HostName(e.host)));
    var m2 := Json.Member("code", Json.JStr(e.code));
    Lookup3(m0, m1, m2, desc, key);
  }

  lemma Lookup3(m0: Json.Member, m1: Json.Member, m2: Json.Member, rest: seq<Json.Member>, key: string)
    ensures Json.Lookup([m0] + ([m1] + ([m2] + rest)), key) ==
      if key == m0.key then Some(m0.value)
      else if key == m1.key then Some(m1.value)
      else if key == m2.key then Some(m2.value)
      else Json.Lookup(rest, key)
  {
    Json.LookupCons(m0, [m1] + ([m2] + rest), key);
    Json.LookupCons(m1, [m2] + rest, key);
    Json.LookupCons(m2, rest, key);
  }

  function Views(entries: seq<(string, Bridge.PendingExecution)>): (r: seq<Json.Json>)
    ensures |r| == |entries|
    ensures forall x :: 0 <= x < |r| ==> r[x] == ExecutionView(entries[x].0, entries[x].1)
  {
    seq(|entries|, x requires 0 <= x < |entries| => ExecutionView(entries[x].0, entries[x].1))
  }

  /** `{found: true, result}`; an `undefined` result is dropped by the JSON encoding. */
  function FoundBody(result: Option<Json.Json>): Json.Json
  {
    Json.JObj([Json.Member("found", Json.JBool(true))]
      + (if result.Some? then [Json.Member("result", result.value)] else []))
  }

  /** The route module's state: the legacy map, next to the shared bridge store. */
  class ToolResultRoute {
    var pendingResults: LegacyMap
    const bridge: Bridge.BridgeStore

    ghost predicate Valid()
      reads this, bridge
    {
      bridge.Valid()
    }

    constructor (store: Bridge.BridgeStore)
      requires store.Valid()
      ensures Valid() && bridge == store && pendingResults == map[]
    {
      bridge := store;
      pendingResults := map[];
    }

    /** `cleanupOldResults`: every legacy entry older than five minutes goes. */
    method CleanupOldResults(now: int)
      modifies this
      ensures pendingResults == FreshLegacy(old(pendingResults), now)
    {
      var m0 := pendingResults;
      var m := pendingResults;
      var keys := m0.Keys;
      while keys != {}
        invariant keys <= m0.Keys
        invariant forall k :: k in m <==> k in m0 && (k !in keys ==> now - m0[k].timestamp <= FiveMinutes)
        invariant forall k :: k in m ==> m[k] == m0[k]
        decreases |keys|
      {
        var k :| k in keys;
        if now - m0[k].timestamp > FiveMinutes {
          m := m - {k};
        }
        keys := keys - {k};
      }
      assert m == FreshLegacy(m0, now);
      pendingResults := m;
    }

    /**
     * `POST`. `body` is None when the request body is not JSON; `failure`
     * is the message of whatever the runtime throws, which the 500 reply
     * carries.
     */
    method Post(body: Option<Json.Json>, now: int, failure: string) returns (resp: Response)
      requires Valid()
      modifies this, bridge
      ensures Valid()
      ensures bridge.order == old(bridge.order) && bridge.waiting == old(bridge.waiting)
      ensures bridge.taskEvents == old(bridge.taskEvents) && bridge.taskListeners == old(bridge.taskListeners)
      ensures !Delivers(body, old(bridge.pending)) ==>
        && bridge.pending == old(bridge.pending) && bridge.results == old(bridge.results)
        && bridge.resultEvents == old(bridge.resultEvents)
      ensures Delivers(body, old(bridge.pending)) ==>
        var id := Json.Get(body.value, "correlationId").value.s;
        var r := ToExecutionResult(Json.Get(body.value, "result").value, now);
        && bridge.pending == old(bridge.pending)[id := old(bridge.pending)[id].(status := if r.success then Bridge.Completed else Bridge.Failed)]
        && bridge.resultEvents == old(bridge.resultEvents) + [Bridge.ResultEvent(id, r)]
        && bridge.results == old(bridge.results)[id := r]
      ensures Unreadable(body) ==>
        resp == Response(500, Json.Obj1("error", Json.JStr(failure))) && pendingResults == old(pendingResults)
      ensures !Unreadable(body) ==>
        var id := Json.Get(body.value, "correlationId");
        var result := Json.Get(body.value, "result");
        if id.None? || !Json.Truthy(id.value) then
          resp == MissingId() && pendingResults == old(pendingResults)
        else if Json.Get(body.value, "source") == Some(Json.JStr(McpSource)) then
          && pendingResults == old(pendingResults)
          && resp == if Unreadable(result) then Response(500, Json.Obj1("error", Json.JStr(failure))) else Ok()
        else
          && resp == Ok()
          && pendingResults == FreshLegacy(old(pendingResults)[id.value := LegacyEntry(result, now)], now)
    {
      if body.None? || body.value.JNull? {
        return Response(500, Json.Obj1("error", Json.JStr(failure)));
      }
      var id := Json.Get(body.value, "correlationId");
      var result := Json.Get(body.value, "result");
      if id.None? || !Json.Truthy(id.value) {
        return MissingId();
      }
      if Json.Get(body.value, "source") == Some(Json.JStr(McpSource)) {
        if result.None? || result.value.JNull? {
          return Response(500, Json.Obj1("error", Json.JStr(failure)));
        }
        if id.value.JStr? {
          var r := ToExecutionResult(result.value, now);
          assert r.(timestamp := now) == r;
          var submitted := bridge.SubmitExecutionResult(id.value.s, r, now);
        }
        return Ok();
      }
      pendingResults := pendingResults[id.value := LegacyEntry(result, now)];
      CleanupOldResults(now);
      return Ok();
    }

    /**
     * `GET`, with the two query parameters (`None` when absent). The task
     * listing changes nothing; a legacy read returns a stored result once.
     */
    method Get(correlationId: Option<string>, action: Option<string>) returns (resp: Response)
      requires Valid()
      modifies this
      ensures Valid()
      ensures action == Some(PendingAction) ==>
        resp == Response(200, Json.Obj1("executions", Json.JArr(Views(Bridge.PendingEntries(bridge.order, bridge.pending)))))
        && pendingResults == old(pendingResults)
      ensures action != Some(PendingAction) && (correlationId.None? || correlationId.value == "") ==>
        resp == MissingId() && pendingResults == old(pendingResults)
      ensures action != Some(PendingAction) && correlationId.Some? && correlationId.value != "" ==>
        var id := Json.JStr(correlationId.value);
        if id in old(pendingResults) then
          resp == Response(200, FoundBody(old(pendingResults)[id].result)) && pendingResults == old(pendingResults) - {id}
        else
          resp == Response(200, Json.Obj1("found", Json.JBool(false))) && pendingResults == old(pendingResults)
    {
      if action == Some(PendingAction) {
        var pending := bridge.GetAllPendingExecutions();
        return Response(200, Json.Obj1("executions", Json.JArr(Views(pending))));
      }
      if correlationId.None? || correlationId.value == "" {
        return MissingId();
      }
      var id := Json.JStr(correlationId.value);
      if id in pendingResults {
        var entry := pendingResults[id];
        pendingResults := pendingResults - {id};
        return Response(200, FoundBody(entry.result));
      }
      return Response(200, Json.Obj1("found", Json.JBool(false)));
    }
  }

  /** A legacy result stored at `now` survives the sweep that follows it. */
  lemma LegacyStoredSurvives(m: LegacyMap, id: Json.Json, result: Option<Json.Json>, now: int)
    ensures var after := FreshLegacy(m[id := LegacyEntry(result, now)], now);
      id in after && after[id] == LegacyEntry(result, now)
  {
  }

  /**
   * A legacy result stored under an id that is not a string can never be read
   * back: every read looks up a string, and no other entry appears.
   */
  lemma NonStringIdUnread(m: LegacyMap, id: Json.Json, result: Option<Json.Json>, now: int, query: string)
    requires !id.JStr?
    ensures Json.JStr(query) in FreshLegacy(m[id := LegacyEntry(result, now)], now) ==> Json.JStr(query) in m
  {
  }

  /** A submission whose correlation id is not a string reaches no task of the bridge. */
  lemma NonStringIdNotDelivered(body: Json.Json, pending: map<string, Bridge.PendingExecution>)
    requires Json.Get(body, "correlationId").Some? && !Json.Get(body, "correlationId").value.JStr?
    ensures !Delivers(Some(body), pending)
  {
  }

  /** The listing shows exactly the pending tasks, each once per listing row. */
  lemma ListingIsPending(order: seq<string>, p: map<string, Bridge.PendingExecution>, id: string)
    requires id in order && id in p && p[id].status == Bridge.Pending
    ensures ExecutionView(id, p[id]) in Views(Bridge.PendingEntries(order, p))
  {
    Bridge.PendingEntriesComplete(order, p, id);
    var es := Bridge.PendingEntries(order, p);
    var x :| 0 <= x < |es| && es[x] == (id, p[id]);
    assert Views(es)[x] == ExecutionView(id, p[id]);
  }

  /** Every listing row is a pending task. */
  lemma ListingOnlyPending(order: seq<string>, p: map<string, Bridge.PendingExecution>, x: nat)
    requires x < |Views(Bridge.PendingEntries(order, p))|
    ensures var v := Views(Bridge.PendingEntries(order, p))[x];
      exists id :: id in p && p[id].status == Bridge.Pending && v == ExecutionView(id, p[id])
  {
    var es := Bridge.PendingEntries(order, p);
    assert es[x].0 in p && p[es[x].0].status == Bridge.Pending;
  }
}
