/**
 * `ConfigManager`: the memoised map from platform account name to that
 * account's GitHub installations, fetched once from the platform's config
 * query and rebuilt on the next call when the fetch reported errors.
 */
module Config {
  import opened Wrappers
  import opened AppConfigs
  import opened SdmApi

  /** The platform account whose config lists every installation. */
  const ConfigAccount: string := "acme-issues"

  type Installations = map<string, seq<AppConfig>>

  /** The config query body: operation `getConfigs` with variables `{appId}`. */
  function ConfigQuery(queryText: string, appId: string): (q: GraphQLRequest)
    ensures q.operationName == "getConfigs" && q.query == queryText
    ensures q.variables == ConfigVariables(appId)
  {
    GraphQLRequest("getConfigs", queryText, ConfigVariables(appId))
  }

  /** A config built by the JSON constructor: both fields present, the id a 32-bit value. */
  predicate Loaded(c: AppConfig) {
    c.githubAccount.Some? && c.installationId.Some? && ValidInstallationId(c.installationId)
  }

  predicate InstallationsLoaded(m: Installations) {
    forall account, i :: account in m && 0 <= i < |m[account]| ==> Loaded(m[account][i])
  }

  /** The inner loop: every `githubAccounts` entry through the JSON constructor, in order; one bad entry throws. */
  function ParseAccounts(entries: seq<AccountJson>): (r: Option<seq<AppConfig>>)
    ensures r.Some? <==> forall i :: 0 <= i < |entries| ==> FromJson(entries[i]).Some?
    ensures r.Some? ==> |r.value| == |entries|
    ensures r.Some? ==> forall i :: 0 <= i < |entries| ==> FromJson(entries[i]) == Some(r.value[i])
  {
    if entries == [] then Some([])
    else
      var init := ParseAccounts(entries[..|entries| - 1]);
      var last := FromJson(entries[|entries| - 1]);
      if init.None? || last.None? then None else Some(init.value + [last.value])
  }

  /** One node: its `account` and its parsed `config.githubAccounts`, or `None` where the source throws. */
  function ParseNode(node: ConfigNode): (r: Option<(string, seq<AppConfig>)>)
    ensures r.Some? ==> node.account == Some(r.value.0)
    ensures r.Some? ==> node.githubAccounts.Some? && ParseAccounts(node.githubAccounts.value) == Some(r.value.1)
    ensures r.None? ==> node.account.None? || node.githubAccounts.None? || ParseAccounts(node.githubAccounts.value).None?
  {
    match (node.account, node.githubAccounts)
    case (Some(account), Some(entries)) =>
      (match ParseAccounts(entries)
       case Some(configs) => Some((account, configs))
       case None => None)
    case _ => None
  }

  /** The `account` names the nodes carry. */
  function Accounts(nodes: seq<ConfigNode>): set<string> {
    if nodes == [] then {}
    else
      var last := nodes[|nodes| - 1];
      Accounts(nodes[..|nodes| - 1]) + (if last.account.Some? then {last.account.value} else {})
  }

  /** The map as far as the outer loop got, and whether it got to the end. */
  datatype Build = Build(installations: Installations, complete: bool)

  /** The outer loop: `put` each node in order, later nodes overwriting earlier ones; stop at the first that throws. */
  function BuildFrom(nodes: seq<ConfigNode>): (b: Build)
    // every key is the account of some node, and a complete build has a key for each of them
    ensures b.installations.Keys <= Accounts(nodes)
    ensures b.complete ==> b.installations.Keys == Accounts(nodes)
  {
    if nodes == [] then Build(map[], true)
    else
      var prior := BuildFrom(nodes[..|nodes| - 1]);
      if !prior.complete then prior
      else match ParseNode(nodes[|nodes| - 1])
        case None => Build(prior.installations, false)
        case Some(entry) => Build(prior.installations[entry.0 := entry.1], true)
  }

  /** Once a prefix has thrown, the rest of the nodes are never read. */
  lemma {:induction false} BuildStopsAtFailure(nodes: seq<ConfigNode>, n: nat)
    requires n <= |nodes|
    requires !BuildFrom(nodes[..n]).complete
    ensures BuildFrom(nodes) == BuildFrom(nodes[..n])
  {
    if n < |nodes| {
      assert nodes[..|nodes| - 1][..n] == nodes[..n];
      BuildStopsAtFailure(nodes[..|nodes| - 1], n);
    } else {
      assert nodes[..n] == nodes;
    }
  }

  /** The build gets to the end exactly when every node is well formed. */
  lemma {:induction false} BuildCompleteIffAllParse(nodes: seq<ConfigNode>)
    ensures BuildFrom(nodes).complete <==> forall i :: 0 <= i < |nodes| ==> ParseNode(nodes[i]).Some?
  {
    if nodes != [] {
      var init := nodes[..|nodes| - 1];
      BuildCompleteIffAllParse(init);
      assert forall i :: 0 <= i < |init| ==> init[i] == nodes[i];
    }
  }

  /** An account is in `Accounts` exactly when some node names it. */
  lemma {:induction false} AccountsNamed(nodes: seq<ConfigNode>)
    ensures forall account :: account in Accounts(nodes) <==>
              exists i :: 0 <= i < |nodes| && nodes[i].account == Some(account)
  {
    if nodes != [] {
      var init := nodes[..|nodes| - 1];
      AccountsNamed(init);
      forall account
        ensures account in Accounts(nodes) <==> exists i :: 0 <= i < |nodes| && nodes[i].account == Some(account)
      {
        if account in Accounts(init) {
          var i :| 0 <= i < |init| && init[i].account == Some(account);
          assert nodes[i] == init[i];
        }
        if exists i :: 0 <= i < |nodes| && nodes[i].account == Some(account) {
          var i :| 0 <= i < |nodes| && nodes[i].account == Some(account);
          if i < |init| {
            assert init[i] == nodes[i];
          }
        }
      }
    }
  }

  /** A complete build has a key for exactly the accounts the nodes name. */
  lemma BuildKeys(nodes: seq<ConfigNode>)
    requires BuildFrom(nodes).complete
    ensures forall account :: account in BuildFrom(nodes).installations <==>
              exists i :: 0 <= i < |nodes| && nodes[i].account == Some(account)
  {
    AccountsNamed(nodes);
  }

  /** Each account maps to the installations of the LAST node naming it, in payload order. */
  lemma {:induction false} BuildLastWins(nodes: seq<ConfigNode>, i: nat)
    requires BuildFrom(nodes).complete
    requires i < |nodes| && nodes[i].account.Some?
    requires forall j :: i < j < |nodes| ==> nodes[j].account != nodes[i].account
    ensures ParseNode(nodes[i]).Some?
    ensures nodes[i].account.value in BuildFrom(nodes).installations
    ensures BuildFrom(nodes).installations[nodes[i].account.value] == ParseNode(nodes[i]).value.1
  {
    BuildCompleteIffAllParse(nodes);
    var init := nodes[..|nodes| - 1];
    if i < |init| {
      assert init[i] == nodes[i];
      assert forall j :: i < j < |init| ==> init[j] == nodes[j];
      BuildLastWins(init, i);
    }
  }

  /** Every config in the map, even a partial one, came from the JSON constructor. */
  lemma {:induction false} BuildLoaded(nodes: seq<ConfigNode>)
    ensures InstallationsLoaded(BuildFrom(nodes).installations)
  {
    if nodes != [] {
      BuildLoaded(nodes[..|nodes| - 1]);
      var entry := ParseNode(nodes[|nodes| - 1]);
      if entry.Some? {
        var configs := entry.value.1;
        var entries := nodes[|nodes| - 1].githubAccounts.value;
        assert forall i :: 0 <= i < |configs| ==> FromJson(entries[i]) == Some(configs[i]);
      }
    }
  }

  /** The inner `forEach` of `getInstallations`: each entry through the JSON constructor, in order. */
  method ParseEntries(entries: seq<AccountJson>) returns (configs: Option<seq<AppConfig>>)
    ensures configs == ParseAccounts(entries)
  {
    var parsed := [];
    var e := 0;
    while e < |entries|
      invariant e <= |entries|
      invariant ParseAccounts(entries[..e]) == Some(parsed)
    {
      assert entries[..e + 1][..e] == entries[..e];
      var config := FromJson(entries[e]);
      if config.None? {
        return None;
      }
      parsed := parsed + [config.value];
      e := e + 1;
    }
    assert entries[..e] == entries;
    configs := Some(parsed);
  }

  /** The outer `forEach` of `getInstallations`, filling a fresh map. */
  method BuildInstallations(nodes: seq<ConfigNode>) returns (installations: Installations, complete: bool)
    ensures Build(installations, complete) == BuildFrom(nodes)
  {
    installations := map[];
    var n := 0;
    while n < |nodes|
      invariant n <= |nodes|
      invariant BuildFrom(nodes[..n]) == Build(installations, true)
    {
      assert nodes[..n + 1][..n] == nodes[..n];
      var node := nodes[n];
      if node.account.None? || node.githubAccounts.None? {
        BuildStopsAtFailure(nodes, n + 1);
        return installations, false;
      }
      var configs := ParseEntries(node.githubAccounts.value);
      if configs.None? {
        BuildStopsAtFailure(nodes, n + 1);
        return installations, false;
      }
      installations := installations[node.account.value := configs.value];
      n := n + 1;
    }
    assert nodes[..n] == nodes;
    complete := true;
  }

  /** What one call of `getInstallations` leaves behind: the memo field, the result, the calls made. */
  datatype Fetch = Fetch(cached: Option<Installations>, result: Result<Installations, Failure>, calls: seq<Call>)

  /** `getInstallations` over the memo field `cached` and the config query it would send. */
  function InstallationsStep(cached: Option<Installations>, query: GraphQLRequest, b: Backend): (f: Fetch)
    // memoised: the same map, and no call
    ensures cached.Some? ==> f == Fetch(cached, Success(cached.value), [])
    // otherwise one query for the config account, with that account's token
    ensures cached.None? ==> f.calls == RoundTrip(ConfigAccount, query, b).calls
    ensures forall c :: c in f.calls ==> c.account == ConfigAccount && c.body == query
    // no token or a thrown query: the exception escapes and nothing is memoised
    ensures cached.None? && RoundTrip(ConfigAccount, query, b).result.Failure? ==>
              f.cached.None? && f.result == Failure(RoundTrip(ConfigAccount, query, b).result.error)
    // reported errors: an empty map, and nothing memoised
    ensures cached.None? && RoundTrip(ConfigAccount, query, b).result.Success?
            && |RoundTrip(ConfigAccount, query, b).result.value.errors| > 0
            ==> f.result == Success(map[]) && f.cached.None?
    // no errors: the nodes are built into the memo, which is returned when the build completes
    ensures cached.None? && RoundTrip(ConfigAccount, query, b).result.Success?
            && RoundTrip(ConfigAccount, query, b).result.value.errors == []
            && RoundTrip(ConfigAccount, query, b).result.value.data.ConfigsData?
            ==> var built := BuildFrom(RoundTrip(ConfigAccount, query, b).result.value.data.nodes);
                f.cached == Some(built.installations)
                && (f.result.Success? <==> built.complete)
                && (f.result.Success? ==> f.result.value == built.installations)
    // data without `configs.nodes`: the fresh empty map is memoised before the read throws
    ensures cached.None? && RoundTrip(ConfigAccount, query, b).result.Success?
            && RoundTrip(ConfigAccount, query, b).result.value.errors == []
            && !RoundTrip(ConfigAccount, query, b).result.value.data.ConfigsData?
            ==> f.cached == Some(map[]) && f.result == Failure(MalformedResponse)
    // a map once memoised is what later calls return
    ensures f.cached.Some? && f.result.Success? ==> f.result.value == f.cached.value
    ensures f.cached.None? ==> cached.None?
    ensures (cached.Some? ==> InstallationsLoaded(cached.value)) ==>
            (f.cached.Some? ==> InstallationsLoaded(f.cached.value)) &&
            (f.result.Success? ==> InstallationsLoaded(f.result.value))
  {
    if cached.Some? then Fetch(cached, Success(cached.value), [])
    else
      var x := RoundTrip(ConfigAccount, query, b);
      match x.result
      case Failure(e) => Fetch(None, Failure(e), x.calls)
      case Success(response) =>
        if |response.errors| > 0 then Fetch(None, Success(map[]), x.calls)
        else match response.data
          case ConfigsData(nodes) =>
            var built := BuildFrom(nodes);
            BuildLoaded(nodes);
            Fetch(Some(built.installations),
                  if built.complete then Success(built.installations) else Failure(MalformedResponse),
                  x.calls)
          // the field is assigned a fresh map before `data.configs.nodes` is read
          case _ => Fetch(Some(map[]), Failure(MalformedResponse), x.calls)
  }

  /** The example configuration: account "acme" with one installation, 7 of "acme-gh". */
  /**
   * A token request that returns null does not stop the fetch: the query goes
   * out with "Bearer null", and a reply without errors is memoised.
   */
  lemma NullTokenStillMemoises(query: GraphQLRequest, b: Backend)
    requires b.createToken(ConfigAccount) == NullToken
    ensures var f := InstallationsStep(None, query, b);
            && f.calls == [Query(ConfigAccount, "Bearer null", query)]
            && (b.executeQuery(f.calls[0]).Returned? && b.executeQuery(f.calls[0]).response.errors == [] ==>
                  f.cached.Some?)
  {
    var header := Authorization(NullToken);
    assert header == header[..7] + header[7..] == "Bearer " + "null" == "Bearer null";
    var x := RoundTrip(ConfigAccount, query, b);
    assert x.calls == [x.calls[0]];
  }

  lemma BuildExample()
    ensures BuildFrom([ConfigNode(Some("acme"), Some([AccountJson(Some("acme-gh"), Some(7))]))])
            == Build(map["acme" := [AppConfig(Some("acme-gh"), Some(7))]], true)
  {
    var entry := AccountJson(Some("acme-gh"), Some(7));
    var node := ConfigNode(Some("acme"), Some([entry]));
    assert FromJson(entry) == Some(AppConfig(Some("acme-gh"), Some(7)));
    assert [entry][..0] == [];
    assert ParseAccounts([entry][..0]) == Some([]);
    assert [] + [AppConfig(Some("acme-gh"), Some(7))] == [AppConfig(Some("acme-gh"), Some(7))];
    assert ParseAccounts([entry]) == Some([AppConfig(Some("acme-gh"), Some(7))]);
    assert [node][..0] == [];
  }

  class ConfigManager {
    const appId: string
    /** The text of the config query resource. */
    const configQueryText: string

    var configQuery: Option<GraphQLRequest>
    var installations: Option<Installations>

    ghost predicate Valid()
      reads this
    {
      && (configQuery.Some? ==> configQuery.value == ConfigQuery(configQueryText, appId))
      && (installations.Some? ==> InstallationsLoaded(installations.value))
    }

    constructor (appId: string, configQueryText: string)
      ensures Valid()
      ensures this.appId == appId && this.configQueryText == configQueryText
      ensures configQuery.None? && installations.None?
    {
      this.appId := appId;
      this.configQueryText := configQueryText;
      configQuery := None;
      installations := None;
    }

    /** `getConfigQuery`: built on first use and kept. */
    method GetConfigQuery() returns (query: GraphQLRequest)
      requires Valid()
      modifies this`configQuery
      ensures Valid()
      ensures query == ConfigQuery(configQueryText, appId) && configQuery == Some(query)
      ensures old(configQuery).Some? ==> configQuery == old(configQuery)
    {
      if configQuery.None? {
        configQuery := Some(ConfigQuery(configQueryText, appId));
      }
      query := configQuery.value;
    }

    method GetInstallations(b: Backend) returns (result: Result<Installations, Failure>, calls: seq<Call>)
      requires Valid()
      modifies this
      ensures Valid()
      ensures Fetch(installations, result, calls)
              == InstallationsStep(old(installations), ConfigQuery(configQueryText, appId), b)
      ensures old(installations).Some? ==> configQuery == old(configQuery)
      // the lazy query is built exactly when a request is about to be sent
      ensures old(installations).None? && !b.createToken(ConfigAccount).Raised? ==>
                configQuery == Some(ConfigQuery(configQueryText, appId))
      ensures old(installations).None? && b.createToken(ConfigAccount).Raised? ==> configQuery == old(configQuery)
    {
      if installations.Some? {
        return Success(installations.value), [];
      }
      var token := b.createToken(ConfigAccount);
      if token.Raised? {
        return Failure(TokenRaised), [];
      }
      var query := GetConfigQuery();
      var call := Query(ConfigAccount, Authorization(token), query);
      calls := [call];
      var outcome := b.executeQuery(call);
      if outcome.Threw? {
        return Failure(QueryThrew), calls;
      }
      var response := outcome.response;
      if |response.errors| > 0 {
        return Success(map[]), calls;
      }
      installations := Some(map[]);
      if !response.data.ConfigsData? {
        return Failure(MalformedResponse), calls;
      }
      var built, complete := BuildInstallations(response.data.nodes);
      BuildLoaded(response.data.nodes);
      installations := Some(built);
      result := if complete then Success(built) else Failure(MalformedResponse);
    }
  }
}
