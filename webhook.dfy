/**
 * `WebhookResource`: resolves the event's installation to a platform account,
 * then reconciles the issue into the platform with an optimistic create, a
 * lookup by idempotency key when the create reports errors, and one update of
 * the entity found.
 *
 * The protocol is specified by the functions `Reconcile`, `LookupStep` and
 * `UpdateStep`, each giving the calls sent and how the event ends; the class
 * methods are proved to send exactly those calls.
 */
module Webhook {
  import opened Wrappers
  import Java
  import opened AppConfigs
  import opened IssueMapper
  import opened SdmApi
  import opened Config

  /** The operation name of every reconciliation request. */
  const OperationName: string := "AddGitHubIssues"

  /** The texts of the create mutation, the lookup query and the update mutation resources. */
  datatype Queries = Queries(createMutation: string, dataQuery: string, updateMutation: string)

  /** How the handling of one event ends. */
  datatype EventOutcome =
    | AccountNotFound           // no installation entry matched; nothing is sent
    | Created                   // the create reported no errors
    | Unresolved                // the create reported errors and the lookup found no id
    | Updated                   // the update reported no errors
    | UpdateRejected            // the update reported errors; nothing further is tried
    | Aborted(cause: Failure)   // an exception ended the event

  // ---------------------------------------------------------------------------
  // Account resolution

  predicate HasInstallation(configs: seq<AppConfig>, installationId: int) {
    exists i :: 0 <= i < |configs| && configs[i].installationId == Some(installationId)
  }

  /** `order` lists every key of `m` once: an iteration order of the map's entries. */
  ghost predicate IsEnumeration(order: seq<string>, m: Installations) {
    && (forall account :: account in m <==> account in order)
    && (forall i, j :: 0 <= i < j < |order| ==> order[i] != order[j])
  }

  /**
   * The entry order of `entrySet().stream()`. `HashMap` fixes no order, so any
   * enumeration of the keys may come out.
   */
  method EnumerateKeys(m: Installations) returns (order: seq<string>)
    ensures IsEnumeration(order, m)
  {
    order := [];
    var rest := m.Keys;
    while rest != {}
      invariant forall account :: account in m <==> account in rest || account in order
      invariant forall account :: account in order ==> account !in rest
      invariant forall i, j :: 0 <= i < j < |order| ==> order[i] != order[j]
      decreases rest
    {
      var account :| account in rest;
      order := order + [account];
      rest := rest - {account};
    }
  }

  /** `filter(...).findFirst()` over the entries in `order`. */
  function FirstMatching(m: Installations, order: seq<string>, installationId: int): (r: Option<string>)
    requires forall i :: 0 <= i < |order| ==> order[i] in m
    ensures r.Some? ==>
      exists i :: 0 <= i < |order| && order[i] == r.value && HasInstallation(m[order[i]], installationId)
                  && forall j :: 0 <= j < i ==> !HasInstallation(m[order[j]], installationId)
    ensures r.None? <==> forall i :: 0 <= i < |order| ==> !HasInstallation(m[order[i]], installationId)
  {
    if order == [] then None
    else if HasInstallation(m[order[0]], installationId) then Some(order[0])
    else
      var r := FirstMatching(m, order[1..], installationId);
      assert forall i :: 1 <= i < |order| ==> order[i] == order[1..][i - 1];
      r
  }

  /**
   * `lookupAccount`: the KEY (the platform account) of the first entry, in
   * iteration order, whose list holds a config with this installation id.
   */
  function LookupAccount(m: Installations, order: seq<string>, installationId: int): (r: Option<string>)
    requires IsEnumeration(order, m)
    ensures r.Some? ==> r.value in m && HasInstallation(m[r.value], installationId)
    ensures r.None? <==> forall account :: account in m ==> !HasInstallation(m[account], installationId)
    ensures r.Some? ==>
      exists i :: 0 <= i < |order| && order[i] == r.value
                  && forall j :: 0 <= j < i ==> !HasInstallation(m[order[j]], installationId)
  {
    assert forall i :: 0 <= i < |order| ==> order[i] in m;
    FirstMatching(m, order, installationId)
  }

  /** No installation id appears under two accounts. */
  ghost predicate UniqueInstallations(m: Installations) {
    forall a, b, installationId ::
      a in m && b in m && HasInstallation(m[a], installationId) && HasInstallation(m[b], installationId) ==> a == b
  }

  /** With unique installation ids, the iteration order cannot change the account found. */
  lemma LookupIgnoresOrder(m: Installations, order1: seq<string>, order2: seq<string>, installationId: int)
    requires IsEnumeration(order1, m) && IsEnumeration(order2, m)
    requires UniqueInstallations(m)
    ensures LookupAccount(m, order1, installationId) == LookupAccount(m, order2, installationId)
  {
  }

  /** Installation 7 of GitHub account "acme-gh", listed under platform account "acme", resolves to "acme". */
  lemma LookupExample()
    ensures var m := map["acme" := [AppConfig(Some("acme-gh"), Some(7))]];
            LookupAccount(m, ["acme"], 7) == Some("acme") && LookupAccount(m, ["acme"], 99) == None
  {
    var m := map["acme" := [AppConfig(Some("acme-gh"), Some(7))]];
    assert HasInstallation(m["acme"], 7) by {
      assert m["acme"][0].installationId == Some(7);
    }
  }

  // ---------------------------------------------------------------------------
  // The reconciliation protocol

  /** `createPayload`: every request of the protocol carries operation `AddGitHubIssues`. */
  function CreatePayload(query: string, variables: Variables): (r: GraphQLRequest)
    ensures r.operationName == OperationName && r.query == query && r.variables == variables
  {
    GraphQLRequest(OperationName, query, variables)
  }

  function CreateRequest(p: Payload, q: Queries): GraphQLRequest {
    CreatePayload(q.createMutation, CreateVariables(BuildV3Key(p), MapV3Issue(p)))
  }

  function LookupRequest(key: string, q: Queries): GraphQLRequest {
    CreatePayload(q.dataQuery, LookupVariables(key))
  }

  function UpdateRequest(id: string, data: MappedIssue, q: Queries): GraphQLRequest {
    CreatePayload(q.updateMutation, UpdateVariables(id, data))
  }

  /** The call that sends `body` for `account`, with the token the token service gives for it. */
  function Sent(account: string, body: GraphQLRequest, b: Backend): (c: Call)
    requires !b.createToken(account).Raised?
    ensures c.account == account && c.body == body
    ensures b.createToken(account).Issued? ==> c.authorization == "Bearer " + b.createToken(account).token
  {
    Query(account, Authorization(b.createToken(account)), body)
  }

  /** The call returned a response that reports errors. */
  predicate ReportedErrors(b: Backend, c: Call) {
    b.executeQuery(c).Returned? && |b.executeQuery(c).response.errors| > 0
  }

  /** The call returned a response without errors. */
  predicate Succeeded(b: Backend, c: Call) {
    b.executeQuery(c).Returned? && b.executeQuery(c).response.errors == []
  }

  /** The id `getDataId` reads from a lookup response: none on errors or zero nodes, else the first node's. */
  function IdOf(response: Response): (r: Result<Option<string>, Failure>)
    ensures |response.errors| > 0 ==> r == Success(None)
    ensures r == Success(None) ==>
      |response.errors| > 0 || (response.data.IssuesData? && response.data.ids == [])
    ensures r.Success? && r.value.Some? ==>
      && response.errors == [] && response.data.IssuesData? && response.data.ids != []
      && response.data.ids[0] == r.value
    // without errors: zero nodes give no id, and the first node's id is the one returned
    ensures response.errors == [] && response.data.IssuesData? && response.data.ids == [] ==> r == Success(None)
    ensures response.errors == [] && response.data.IssuesData? && response.data.ids != []
            && response.data.ids[0].Some?
            ==> r == Success(response.data.ids[0])
    // without errors, a missing `gitHubIssues.nodes` or a first node without `id` throws
    ensures response.errors == [] && !response.data.IssuesData? ==> r == Failure(MalformedResponse)
    ensures response.errors == [] && response.data.IssuesData? && response.data.ids != []
            && response.data.ids[0].None?
            ==> r == Failure(MalformedResponse)
  {
    if |response.errors| > 0 then Success(None)
    else match response.data
      case IssuesData(ids) =>
        if ids == [] then Success(None)
        else if ids[0].None? then Failure(MalformedResponse)
        else Success(ids[0])
      case _ => Failure(MalformedResponse)
  }

  datatype Lookup = Lookup(calls: seq<Call>, result: Result<Option<string>, Failure>)

  /** `getDataId`: one lookup by key; the id found, `null`, or an exception. */
  function LookupStep(account: string, key: string, q: Queries, b: Backend): (l: Lookup)
    ensures |l.calls| <= 1
    ensures forall c :: c in l.calls ==> c.account == account && c.body == LookupRequest(key, q)
    ensures l.calls != [] && b.executeQuery(l.calls[0]).Returned? ==>
              l.result == IdOf(b.executeQuery(l.calls[0]).response)
    ensures l.result.Success? ==> l.calls != [] && b.executeQuery(l.calls[0]).Returned?
    // the lookup is sent exactly when a token is obtained
    ensures l.calls == [] <==> b.createToken(account).Raised?
    ensures l.calls == [] ==> l.result == Failure(TokenRaised)
    ensures l.calls != [] ==> l.calls == [Sent(account, LookupRequest(key, q), b)]
    ensures l.calls != [] && b.executeQuery(l.calls[0]) == Threw ==> l.result == Failure(QueryThrew)
  {
    var x := RoundTrip(account, LookupRequest(key, q), b);
    match x.result
    case Failure(e) => Lookup(x.calls, Failure(e))
    case Success(response) => Lookup(x.calls, IdOf(response))
  }

  datatype Reconciliation = Reconciliation(calls: seq<Call>, outcome: EventOutcome)

  /** `executeUpdate`: one update; its errors are logged and end the event. */
  function UpdateStep(account: string, id: string, data: MappedIssue, q: Queries, b: Backend): (u: Reconciliation)
    ensures |u.calls| <= 1
    ensures forall c :: c in u.calls ==> c.account == account && c.body == UpdateRequest(id, data, q)
    ensures u.outcome == Updated || u.outcome == UpdateRejected || u.outcome.Aborted?
    ensures u.outcome == Updated <==> u.calls != [] && Succeeded(b, u.calls[0])
    ensures u.outcome == UpdateRejected <==> u.calls != [] && ReportedErrors(b, u.calls[0])
    // the update is sent exactly when a token is obtained
    ensures u.calls == [] <==> b.createToken(account).Raised?
    ensures u.calls == [] ==> u.outcome == Aborted(TokenRaised)
    ensures u.calls != [] ==> u.calls == [Sent(account, UpdateRequest(id, data, q), b)]
    ensures u.calls != [] && b.executeQuery(u.calls[0]) == Threw ==> u.outcome == Aborted(QueryThrew)
  {
    var x := RoundTrip(account, UpdateRequest(id, data, q), b);
    match x.result
    case Failure(e) => Reconciliation(x.calls, Aborted(e))
    case Success(response) =>
      Reconciliation(x.calls, if |response.errors| > 0 then UpdateRejected else Updated)
  }

  /**
   * What `executeCreate` does after a create that reported errors: look the
   * key up and, when an id comes back, update that entity once.
   */
  function Fallback(account: string, key: string, data: MappedIssue, q: Queries, b: Backend): (r: Reconciliation)
    ensures |r.calls| <= 2
    ensures forall c :: c in r.calls ==> c.account == account && c.body.operationName == OperationName
    ensures r.outcome != AccountNotFound && r.outcome != Created
    // the lookup by key is sent exactly when a token is obtained
    ensures r.calls == [] <==> b.createToken(account).Raised?
    ensures r.calls == [] ==> r.outcome == Aborted(TokenRaised)
    ensures r.calls != [] ==> r.calls[0] == Sent(account, LookupRequest(key, q), b)
    // an id found is updated exactly once, with the same data, and the update decides the outcome
    ensures r.calls != [] && b.executeQuery(r.calls[0]).Returned? ==>
      var found := IdOf(b.executeQuery(r.calls[0]).response);
      found.Success? && found.value.Some? ==>
        && r.calls == [r.calls[0]] + UpdateStep(account, found.value.value, data, q, b).calls
        && r.outcome == UpdateStep(account, found.value.value, data, q, b).outcome
    // a malformed lookup response ends the event with an exception
    ensures r.calls != [] && b.executeQuery(r.calls[0]).Returned?
            && IdOf(b.executeQuery(r.calls[0]).response).Failure?
            ==> |r.calls| == 1 && r.outcome == Aborted(MalformedResponse)
    // a second call is the one update, of the id the lookup found, with the same data
    ensures |r.calls| == 2 ==>
      && b.executeQuery(r.calls[0]).Returned?
      && var found := IdOf(b.executeQuery(r.calls[0]).response);
         found.Success? && found.value.Some? && r.calls[1].body == UpdateRequest(found.value.value, data, q)
    // a lookup that yields no id ends the event without an update
    ensures r.calls != [] && b.executeQuery(r.calls[0]).Returned?
            && IdOf(b.executeQuery(r.calls[0]).response) == Success(None)
            ==> |r.calls| == 1 && r.outcome == Unresolved
    ensures r.outcome == Unresolved ==> |r.calls| == 1
    ensures r.outcome == Updated || r.outcome == UpdateRejected ==> |r.calls| == 2
    // an exception from a call ends the event at that call
    ensures forall i :: 0 <= i < |r.calls| && b.executeQuery(r.calls[i]) == Threw ==>
              |r.calls| == i + 1 && r.outcome == Aborted(QueryThrew)
  {
    var lookup := LookupStep(account, key, q, b);
    match lookup.result
    case Failure(e) => Reconciliation(lookup.calls, Aborted(e))
    case Success(None) => Reconciliation(lookup.calls, Unresolved)
    case Success(Some(id)) =>
      var update := UpdateStep(account, id, data, q, b);
      Reconciliation(lookup.calls + update.calls, update.outcome)
  }

  /** `executeCreate`: create; on reported errors fall back to lookup and update. */
  function Reconcile(account: string, p: Payload, q: Queries, b: Backend): (r: Reconciliation)
    // at most a create, a lookup and an update, all for this account under `AddGitHubIssues`
    ensures |r.calls| <= 3
    ensures forall c :: c in r.calls ==> c.account == account && c.body.operationName == OperationName
    ensures r.outcome != AccountNotFound
    // the create, with the payload's key and mapped issue, is sent exactly when a token is obtained
    ensures r.calls == [] <==> b.createToken(account).Raised?
    ensures r.calls == [] ==> r.outcome == Aborted(TokenRaised)
    ensures r.calls != [] ==> r.calls[0] == Sent(account, CreateRequest(p, q), b)
    // the event ends with `Created` exactly when the create reported no errors
    ensures r.outcome == Created <==> |r.calls| == 1 && Succeeded(b, r.calls[0])
    // only a create that reported errors is followed by more calls: the fallback for the same key and data
    ensures r.calls != [] && ReportedErrors(b, r.calls[0]) ==>
              var fallback := Fallback(account, BuildV3Key(p), MapV3Issue(p), q, b);
              r.calls[1..] == fallback.calls && r.outcome == fallback.outcome
    ensures !(r.calls != [] && ReportedErrors(b, r.calls[0])) ==> |r.calls| <= 1
    // an exception from the create ends the event
    ensures r.calls != [] && b.executeQuery(r.calls[0]) == Threw ==>
              |r.calls| == 1 && r.outcome == Aborted(QueryThrew)
  {
    var created := RoundTrip(account, CreateRequest(p, q), b);
    match created.result
    case Failure(e) => Reconciliation(created.calls, Aborted(e))
    case Success(response) =>
      if |response.errors| == 0 then Reconciliation(created.calls, Created)
      else
        var fallback := Fallback(account, BuildV3Key(p), MapV3Issue(p), q, b);
        Reconciliation(created.calls + fallback.calls, fallback.outcome)
  }

  /**
   * Installation 7 and issue node "I1" give the key "7:I1"; a create that
   * reports no errors is the only call of the event.
   */
  lemma CreateWithoutErrorsIsTheOnlyCall(account: string, p: Payload, q: Queries, b: Backend, token: string)
    requires p.installation.id == 7 && p.issue.nodeId == "I1"
    requires b.createToken(account) == Issued(token)
    requires Succeeded(b, Query(account, Authorization(Issued(token)), CreateRequest(p, q)))
    ensures var r := Reconcile(account, p, q, b);
            && r.calls == [Query(account, "Bearer " + token,
                                 CreatePayload(q.createMutation, CreateVariables("7:I1", MapV3Issue(p))))]
            && r.outcome == Created
  {
    assert BuildV3Key(p) == "7:I1" by {
      assert Java.IntToString(7) == "7";
    }
  }

  /**
   * A create that reports errors, followed by a lookup that finds the node
   * "X1", issues exactly one update, of "X1" with the same mapped issue.
   */
  lemma FallbackUpdatesFoundEntity(account: string, p: Payload, q: Queries, b: Backend, token: string)
    requires b.createToken(account) == Issued(token)
    requires ReportedErrors(b, Query(account, Authorization(Issued(token)), CreateRequest(p, q)))
    requires b.executeQuery(Query(account, Authorization(Issued(token)), LookupRequest(BuildV3Key(p), q)))
             == Returned(Response([], IssuesData([Some("X1")])))
    ensures var r := Reconcile(account, p, q, b);
            && |r.calls| == 3
            && r.calls[2] == Query(account, "Bearer " + token, UpdateRequest("X1", MapV3Issue(p), q))
            && forall i :: 0 <= i < 2 ==> !r.calls[i].body.variables.UpdateVariables?
  {
  }

  /** A create that reports errors, followed by a lookup with zero nodes, issues no update. */
  lemma NoMatchMeansNoUpdate(account: string, p: Payload, q: Queries, b: Backend, token: string)
    requires b.createToken(account) == Issued(token)
    requires ReportedErrors(b, Query(account, Authorization(Issued(token)), CreateRequest(p, q)))
    requires b.executeQuery(Query(account, Authorization(Issued(token)), LookupRequest(BuildV3Key(p), q)))
             == Returned(Response([], IssuesData([])))
    ensures var r := Reconcile(account, p, q, b);
            r.outcome == Unresolved && forall c :: c in r.calls ==> !c.body.variables.UpdateVariables?
  {
  }

  // ---------------------------------------------------------------------------
  // The resource object

  class WebhookResource {
    const configManager: ConfigManager
    /** The texts of the three query resources. */
    const queries: Queries

    var createDataMutationQuery: Option<string>
    var updateDataMutationQuery: Option<string>
    var dataQuery: Option<string>

    ghost predicate Valid()
      reads this, configManager
    {
      && configManager.Valid()
      && (createDataMutationQuery.Some? ==> createDataMutationQuery.value == queries.createMutation)
      && (updateDataMutationQuery.Some? ==> updateDataMutationQuery.value == queries.updateMutation)
      && (dataQuery.Some? ==> dataQuery.value == queries.dataQuery)
    }

    constructor (configManager: ConfigManager, queries: Queries)
      requires configManager.Valid()
      ensures Valid()
      ensures this.configManager == configManager && this.queries == queries
      ensures createDataMutationQuery.None? && updateDataMutationQuery.None? && dataQuery.None?
    {
      this.configManager := configManager;
      this.queries := queries;
      createDataMutationQuery := None;
      updateDataMutationQuery := None;
      dataQuery := None;
    }

    method GetCreateDataMutation() returns (query: string)
      requires Valid()
      modifies this`createDataMutationQuery
      ensures Valid()
      ensures query == queries.createMutation && createDataMutationQuery == Some(query)
    {
      if createDataMutationQuery.None? {
        createDataMutationQuery := Some(queries.createMutation);
      }
      query := createDataMutationQuery.value;
    }

    method GetUpdateDataMutation() returns (query: string)
      requires Valid()
      modifies this`updateDataMutationQuery
      ensures Valid()
      ensures query == queries.updateMutation && updateDataMutationQuery == Some(query)
    {
      if updateDataMutationQuery.None? {
        updateDataMutationQuery := Some(queries.updateMutation);
      }
      query := updateDataMutationQuery.value;
    }

    method GetDataQuery() returns (query: string)
      requires Valid()
      modifies this`dataQuery
      ensures Valid()
      ensures query == queries.dataQuery && dataQuery == Some(query)
    {
      if dataQuery.None? {
        dataQuery := Some(queries.dataQuery);
      }
      query := dataQuery.value;
    }

    /** One authenticated request for `account`, as the three call sites do it. */
    method Send(account: string, body: GraphQLRequest, b: Backend) returns (x: Exchange)
      ensures x == RoundTrip(account, body, b)
    {
      var token := b.createToken(account);
      if token.Raised? {
        return Exchange([], Failure(TokenRaised));
      }
      var call := Query(account, Authorization(token), body);
      var outcome := b.executeQuery(call);
      if outcome.Threw? {
        return Exchange([call], Failure(QueryThrew));
      }
      x := Exchange([call], Success(outcome.response));
    }

    method GetDataId(account: string, key: string, b: Backend)
      returns (id: Result<Option<string>, Failure>, calls: seq<Call>)
      requires Valid()
      modifies this`dataQuery
      ensures Valid()
      ensures Lookup(calls, id) == LookupStep(account, key, queries, b)
      ensures dataQuery == Some(queries.dataQuery)
    {
      var query := GetDataQuery();
      var x := Send(account, CreatePayload(query, LookupVariables(key)), b);
      calls := x.calls;
      if x.result.Failure? {
        return Failure(x.result.error), calls;
      }
      var response := x.result.value;
      if |response.errors| > 0 {
        return Success(None), calls;
      }
      if !response.data.IssuesData? {
        return Failure(MalformedResponse), calls;
      }
      var ids := response.data.ids;
      if |ids| > 0 {
        if ids[0].None? {
          return Failure(MalformedResponse), calls;
        }
        return Success(ids[0]), calls;
      }
      id := Success(None);
    }

    method ExecuteUpdate(id: string, mappedData: MappedIssue, account: string, b: Backend)
      returns (calls: seq<Call>, outcome: EventOutcome)
      requires Valid()
      modifies this`updateDataMutationQuery
      ensures Valid()
      ensures Reconciliation(calls, outcome) == UpdateStep(account, id, mappedData, queries, b)
      ensures updateDataMutationQuery == Some(queries.updateMutation)
    {
      var query := GetUpdateDataMutation();
      var x := Send(account, CreatePayload(query, UpdateVariables(id, mappedData)), b);
      calls := x.calls;
      if x.result.Failure? {
        return calls, Aborted(x.result.error);
      }
      if |x.result.value.errors| > 0 {
        return calls, UpdateRejected;
      }
      outcome := Updated;
    }

    method ExecuteCreate(p: Payload, account: string, b: Backend)
      returns (calls: seq<Call>, outcome: EventOutcome)
      requires Valid()
      modifies this`createDataMutationQuery, this`updateDataMutationQuery, this`dataQuery
      ensures Valid()
      ensures Reconciliation(calls, outcome) == Reconcile(account, p, queries, b)
      // the lazy texts: the create mutation always, the lookup query only on a fallback,
      // the update mutation only when that lookup finds an id
      ensures createDataMutationQuery == Some(queries.createMutation)
      ensures var created := RoundTrip(account, CreateRequest(p, queries), b);
              var fellBack := created.result.Success? && |created.result.value.errors| > 0;
              var found := LookupStep(account, BuildV3Key(p), queries, b).result;
              && dataQuery == (if fellBack then Some(queries.dataQuery) else old(dataQuery))
              && updateDataMutationQuery
                   == (if fellBack && found.Success? && found.value.Some? then Some(queries.updateMutation)
                       else old(updateDataMutationQuery))
    {
      var key := BuildV3Key(p);
      var data := MapV3Issue(p);
      var query := GetCreateDataMutation();
      var x := Send(account, CreatePayload(query, CreateVariables(key, data)), b);
      calls := x.calls;
      if x.result.Failure? {
        return calls, Aborted(x.result.error);
      }
      if |x.result.value.errors| > 0 {
        var id, lookupCalls := GetDataId(account, key, b);
        calls := calls + lookupCalls;
        if id.Failure? {
          return calls, Aborted(id.error);
        }
        if id.value.None? {
          return calls, Unresolved;
        }
        var updateCalls;
        updateCalls, outcome := ExecuteUpdate(id.value.value, data, account, b);
        calls := calls + updateCalls;
        return;
      }
      outcome := Created;
    }

    /**
     * `onWebhook`: resolve the installation to an account and reconcile the
     * issue for it. The event-type header is accepted and not read.
     */
    method OnWebhook(eventType: string, p: Payload, b: Backend)
      returns (calls: seq<Call>, outcome: EventOutcome, ghost account: Option<string>)
      requires Valid()
      modifies this, configManager
      ensures Valid()
      ensures var fetch := InstallationsStep(old(configManager.installations),
                                             ConfigQuery(configManager.configQueryText, configManager.appId), b);
              var installationId := Java.WrapInt(p.installation.id);
              && configManager.installations == fetch.cached
              && (fetch.result.Failure? ==>
                    calls == fetch.calls && outcome == Aborted(fetch.result.error) && account.None?)
              && (fetch.result.Success? ==>
                    && (account.None? <==>
                          forall a :: a in fetch.result.value ==> !HasInstallation(fetch.result.value[a], installationId))
                    && (account.None? ==> calls == fetch.calls && outcome == AccountNotFound)
                    && (account.Some? ==>
                          && account.value in fetch.result.value
                          && HasInstallation(fetch.result.value[account.value], installationId)
                          && calls == fetch.calls + Reconcile(account.value, p, queries, b).calls
                          && outcome == Reconcile(account.value, p, queries, b).outcome))
    // the lazy texts are touched only once an account is found, and the create mutation then always
    ensures account.Some? ==> createDataMutationQuery == Some(queries.createMutation)
    ensures account.None? ==>
              && createDataMutationQuery == old(createDataMutationQuery)
              && updateDataMutationQuery == old(updateDataMutationQuery)
              && dataQuery == old(dataQuery)
    {
      var installationId := Java.WrapInt(p.installation.id);
      var installations, configCalls := configManager.GetInstallations(b);
      if installations.Failure? {
        return configCalls, Aborted(installations.error), None;
      }
      var order := EnumerateKeys(installations.value);
      var found := LookupAccount(installations.value, order, installationId);
      if found.None? {
        return configCalls, AccountNotFound, None;
      }
      var reconcileCalls;
      reconcileCalls, outcome := ExecuteCreate(p, found.value, b);
      calls := configCalls + reconcileCalls;
      account := found;
    }
  }
}
