/**
 * The boundary to the platform's GraphQL endpoint (`POST /a/{account}/graphql`)
 * and to the token service behind it: request and response shapes, the
 * `Authorization` header, and the oracles that answer them.
 */
module SdmApi {
  import opened Wrappers
  import IssueMapper
  import AppConfigs
  import Tokens

  datatype Variables =
    | CreateVariables(key: string, data: IssueMapper.MappedIssue)
    | LookupVariables(key: string)
    | UpdateVariables(id: string, data: IssueMapper.MappedIssue)
    | ConfigVariables(appId: string)

  /** The JSON body `{operationName, query, variables}`. */
  datatype GraphQLRequest = GraphQLRequest(operationName: string, query: string, variables: Variables)

  /** A node of `data.configs.nodes`; a field is `None` when missing or of the wrong JSON type. */
  datatype ConfigNode = ConfigNode(account: Option<string>, githubAccounts: Option<seq<AppConfigs.AccountJson>>)

  /** The shape of `data`: the config nodes, the `id`s of `data.gitHubIssues.nodes`, or anything else. */
  datatype ResponseData =
    | ConfigsData(nodes: seq<ConfigNode>)
    | IssuesData(ids: seq<Option<string>>)
    | UnexpectedData

  /** A GraphQL response; `errors` is empty on success. */
  datatype Response = Response(errors: seq<string>, data: ResponseData)

  /** `executeQuery` either returns a response or throws. */
  datatype QueryOutcome = Returned(response: Response) | Threw

  /**
   * `ApiManager.createToken`: a token, `null` (the token service failed with
   * an `IOException`), or an exception that escapes (the private key could not be read).
   */
  datatype ApiToken = Issued(token: string) | NullToken | Raised

  /** One request to the GraphQL endpoint: the account in the path, the header, the body. */
  datatype Call = Query(account: string, authorization: string, body: GraphQLRequest)

  /** Why an operation ended with an exception. */
  datatype Failure = TokenRaised | QueryThrew | MalformedResponse

  /** The token service and the GraphQL endpoint, as functions of what they are sent. */
  datatype Backend = Backend(createToken: string -> ApiToken, executeQuery: Call -> QueryOutcome)

  /** `SDMAuth.getAuthorization`: "Bearer " and the token, which prints as "null" when absent. */
  function Authorization(t: ApiToken): (header: string)
    requires !t.Raised?
    ensures |header| >= 7 && header[..7] == "Bearer "
    ensures t.Issued? ==> header[7..] == t.token
    ensures t.NullToken? ==> header[7..] == "null"
  {
    Tokens.Bearer(if t.Issued? then t.token else "null")
  }

  /**
   * `ApiManager.createToken` over the token manager's result: its
   * `IOException`s become `null`; the unchecked exceptions (the key cannot be
   * read, a token without `exp`) escape.
   */
  function ApiManagerToken(r: Result<string, Tokens.TokenError>): (t: ApiToken)
    ensures t.Raised? <==> r == Failure(Tokens.KeyUnreadable) || r == Failure(Tokens.ExpiryMissing)
    ensures t.Issued? <==> r.Success?
    ensures t.Issued? ==> t.token == r.value
  {
    match r
    case Success(token) => Issued(token)
    case Failure(e) => if e == Tokens.KeyUnreadable || e == Tokens.ExpiryMissing then Raised else NullToken
  }

  /**
   * The token oracle answers for `account` as `ApiManager.createToken` does
   * when the token manager is in state `s` at `now`: over one `AccountTokenStep`.
   */
  predicate TokenServedBy(b: Backend, account: string, platformEndpoint: string, appId: string,
                          privateKeyStr: string, s: Tokens.TokenState, now: int, p: Tokens.Platform)
  {
    b.createToken(account)
      == ApiManagerToken(Tokens.AccountTokenStep(platformEndpoint, appId, privateKeyStr, s, account, now, p).result)
  }

  /** What one authenticated round trip left behind: the call it made, if any, and its result. */
  datatype Exchange = Exchange(calls: seq<Call>, result: Result<Response, Failure>)

  /** Ask for the account's token, then send `body` for that account with it. */
  function RoundTrip(account: string, body: GraphQLRequest, b: Backend): (x: Exchange)
    ensures |x.calls| <= 1
    ensures x.calls == [] <==> b.createToken(account).Raised?
    ensures x.calls == [] ==> x.result == Failure(TokenRaised)
    ensures x.calls != [] ==> x.calls[0] == Query(account, Authorization(b.createToken(account)), body)
    ensures x.result.Success? ==> x.calls != [] && b.executeQuery(x.calls[0]) == Returned(x.result.value)
    ensures x.result.Failure? && x.calls != [] ==> b.executeQuery(x.calls[0]) == Threw
  {
    var token := b.createToken(account);
    if token.Raised? then Exchange([], Failure(TokenRaised))
    else
      var call := Query(account, Authorization(token), body);
      match b.executeQuery(call)
      case Threw => Exchange([call], Failure(QueryThrew))
      case Returned(response) => Exchange([call], Success(response))
  }

  /**
   * A round trip whose token comes from the token manager: nothing is sent
   * exactly when the key cannot be read or the token lacks `exp`; otherwise the
   * header carries the manager's token, or "null" after an `IOException`, and
   * a fresh cached token is sent without any exchange.
   */
  lemma RoundTripOverTokenManager(account: string, body: GraphQLRequest, b: Backend, platformEndpoint: string,
                                  appId: string, privateKeyStr: string, s: Tokens.TokenState, now: int,
                                  p: Tokens.Platform)
    requires TokenServedBy(b, account, platformEndpoint, appId, privateKeyStr, s, now, p)
    ensures var step := Tokens.AccountTokenStep(platformEndpoint, appId, privateKeyStr, s, account, now, p);
            var x := RoundTrip(account, body, b);
            && (x.calls == [] <==> step.result == Failure(Tokens.KeyUnreadable) || step.result == Failure(Tokens.ExpiryMissing))
            && (step.result.Success? ==> x.calls == [Query(account, Tokens.Bearer(step.result.value), body)])
            && (x.calls != [] && step.result.Failure? ==> x.calls == [Query(account, Tokens.Bearer("null"), body)])
            && (Tokens.AccountTokenFresh(s, account, now) ==>
                  && step.calls == []
                  && x.calls == [Query(account, Tokens.Bearer(s.accountTokens[account].token), body)])
  {
  }
}
