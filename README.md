# acme-github-issues: a Dafny model of the webhook core

This project models the core of a service that receives GitHub `issues` webhook events and mirrors each issue into a multi-tenant platform through the platform's GraphQL API. Five parts are modelled.

- **`AppTokens`** (module `Tokens`) is the platform-app credential manager. It holds one cached app JWT, which it signs itself with a private key. The key is read on each call until it loads once; a failed read keeps nothing. It also holds one cached account token per platform account, obtained by exchanging the app JWT at `/platform/api/app/installations/{account}/accessToken`. A token counts as expired once its expiry falls within 30 seconds of the clock, the boundary included. A token whose claims cannot be read is given the expiry "now − 1 ms". A token whose claims parse but carry no `exp` makes the wrapper throw a `NullPointerException`: nothing is cached, and the exception escapes `ApiManager.createToken`.
- **`GitHubIssueMapper`** (module `IssueMapper`) computes two things:
  - the idempotency key `"<installation id>:<issue node id>"`;
  - the projection of the issue into the platform's schema, with the state upper-cased.
- **`AppConfig`** (module `AppConfigs`) is one GitHub installation of a platform account. It compares by value and has Java `equals`/`hashCode`.
- **`ConfigManager`** (module `Config`) is the memoised map from platform account name to that account's installations. It is fetched with the `getConfigs` query as account `acme-issues`. A response without reported errors is memoised, even when only part of it loads. After reported errors, a token request that throws or a thrown query, nothing is memoised and the next call fetches again. A token request that returns null (an `IOException` in the token service) still sends the query, with the header "Bearer null", and its reply is memoised like any other.
- **`WebhookResource`** (module `Webhook`) handles one event:
  1. It narrows the installation id to a 32-bit `int`.
  2. It resolves the account: the first map entry, in iteration order, whose list holds that installation id.
  3. It reconciles the issue: an optimistic create; on reported errors, a lookup by key; when that finds a node, exactly one update of that node with the same mapped data.

Two modules are supporting parts:

- `SdmApi` models the boundary: the GraphQL request and response shapes, the `Authorization: Bearer <token>` header, `ApiManager.createToken` and the `Backend` whose functions answer the token and query calls.
- `Java` writes out the Java semantics the core depends on:
  - 32-bit narrowing;
  - truncating division;
  - ASCII upper-casing;
  - the decimal text of an integer.

## How it is modelled

Each stateful operation is specified by a pure step function. The step function gives the new state, the result (a value or the exception that ends the operation), and the outbound calls in order. The stateful classes are `AppTokens`, `ConfigManager` and `WebhookResource`. Their methods update fields as the source does, and each method is proved to take exactly its function's step. Properties that relate several calls are lemmas about the step functions.

The clock is a parameter `now`. The private-key reader, the JWS signer, the JWT claim decoder, the token endpoint, the token service and the GraphQL endpoint are function-valued parameters (`Tokens.Platform` and `SdmApi.Backend`).

Two integer conversions differ, and the model keeps both:
- The installation id in the key is the decimal text of the JSON number as received.
- The id used for account resolution is that number narrowed with `intValue()`, i.e. `Java.WrapInt`.

Some behaviours of the code differ from what one might expect, and the model follows the code:
- **Account resolution returns the map key.** `lookupAccount` returns the platform account, not the GitHub account stored in the config. One might expect installation 7 of the map `{"acme": [{account: "acme-gh", installationId: 7}]}` to resolve to "acme-gh"; the code returns "acme" (`Webhook.LookupExample`).
- **A config fetch that reports errors is not memoised.** One might expect the empty map to stay in place for the life of the process. The code returns an empty map without setting the field, so the next call queries again (`Config.InstallationsStep`).
- **A malformed config response is memoised.** The field is assigned a fresh map before `data.configs.nodes` is read. A response whose `data` lacks that array therefore memoises an empty map and throws. A response with a malformed node memoises the entries before that node and throws.
- **An account's list may be empty.** The code stores whatever `githubAccounts` array it receives, so an account can have no installations.

## Model

| member | source | states |
|---|---|---|
| Java.WrapInt | src/main/java/org/acme/github/issues/model/AppConfig.java:16 | `intValue()` narrowing: the result is a 32-bit value congruent to the input modulo 2^32, and equals the input when the input already fits |
| Java.WrapIntCongruent | src/main/java/org/acme/github/issues/model/AppConfig.java:54-56 | values that agree modulo 2^32 narrow to the same `int`, so 32-bit arithmetic may be narrowed at every step or once at the end |
| Java.CongruentTimes31 | src/main/java/org/acme/github/issues/model/AppConfig.java:54-56 | a step `31 * h + c` keeps two values congruent modulo 2^32 |
| Java.TruncDiv | src/main/java/com/cloudbees/sdm/api/AppTokens.java:65 | Java's `/` truncates toward zero: bounds of the quotient for non-negative and for negative dividends |
| Java.TruncDivByHundredIsTwo | src/main/java/com/cloudbees/sdm/api/AppTokens.java:65 | `status / 100 == 2` holds exactly for statuses 200 to 299, negative statuses included in the "no" side |
| Java.ToUpperCase | src/main/java/org/acme/github/issues/utils/GitHubIssueMapper.java:41 | upper-casing keeps the length, leaves no lower-case ASCII letter, maps each lower-case letter to its capital and keeps every other character |
| Java.DecimalRoundTrip | src/main/java/org/acme/github/issues/utils/GitHubIssueMapper.java:10-12 | the decimal digits of a natural number read back as that number |
| Java.NatToDecimal | src/main/java/org/acme/github/issues/utils/GitHubIssueMapper.java:10-12 | the decimal digits of a natural number, non-empty, with a leading '0' exactly for zero |
| Java.IntToString | src/main/java/org/acme/github/issues/utils/GitHubIssueMapper.java:10-12 | the text of a number is non-empty and holds no ':'. It is canonical: a '-' exactly for negatives and no leading zeros |
| Java.IntToStringParses | src/main/java/org/acme/github/issues/utils/GitHubIssueMapper.java:10-12 | the text of every integer, negative ones included, parses back to that integer |
| Java.IntToStringInjective | src/main/java/org/acme/github/issues/utils/GitHubIssueMapper.java:10-12 | two integers have the same text if and only if they are equal |
| AppConfigs.Blank | src/main/java/org/acme/github/issues/model/AppConfig.java:10-12 | the no-argument constructor leaves both fields null |
| AppConfigs.Of | src/main/java/org/acme/github/issues/model/AppConfig.java:19-22 | the two-argument constructor stores exactly its arguments |
| AppConfigs.FromJson | src/main/java/org/acme/github/issues/model/AppConfig.java:14-17 | the JSON constructor succeeds exactly when `account` and `installationId` are present; it keeps the account and narrows the id to 32 bits |
| AppConfigs.WithGithubAccount | src/main/java/org/acme/github/issues/model/AppConfig.java:28-30 | the setter changes the GitHub account and nothing else |
| AppConfigs.WithInstallationId | src/main/java/org/acme/github/issues/model/AppConfig.java:36-38 | the setter changes the installation id and nothing else |
| AppConfigs.EqualsIffSameFields | src/main/java/org/acme/github/issues/model/AppConfig.java:41-51 | `equals` is true exactly for another `AppConfig` with equal fields; it is false for null and for other classes |
| AppConfigs.Equals | src/main/java/org/acme/github/issues/model/AppConfig.java:41-51 | `equals` is false for null and for objects of other classes |
| AppConfigs.EqualsReflexive | src/main/java/org/acme/github/issues/model/AppConfig.java:41-51 | every config equals itself |
| AppConfigs.EqualsSymmetric | src/main/java/org/acme/github/issues/model/AppConfig.java:41-51 | `equals` is symmetric |
| AppConfigs.EqualsTransitive | src/main/java/org/acme/github/issues/model/AppConfig.java:41-51 | `equals` is transitive |
| AppConfigs.StringHash | src/main/java/org/acme/github/issues/model/AppConfig.java:54-56 | `String.hashCode` is a 32-bit value, equal to the sum of s[i] * 31^(n-1-i) narrowed to 32 bits |
| AppConfigs.PolyHashSnoc | src/main/java/org/acme/github/issues/model/AppConfig.java:54-56 | the sum polynomial satisfies the step h = 31 * h + c when a character is appended |
| AppConfigs.HashCode | src/main/java/org/acme/github/issues/model/AppConfig.java:54-56 | `Objects.hash` of the two fields equals 961 + 31 * h(account) + h(id) narrowed once, with null hashing to 0 |
| AppConfigs.EqualsImpliesSameHash | src/main/java/org/acme/github/issues/model/AppConfig.java:41-56 | equal configs have equal hash codes |
| AppConfigs.HashCodeExamples | src/main/java/org/acme/github/issues/model/AppConfig.java:54-56 | the blank config hashes to 961, and installation 7 without an account hashes to 968 |
| IssueMapper.IndexOfColon | src/main/java/org/acme/github/issues/utils/GitHubIssueMapper.java:10 | the separator position is the first ':' of the text, or its length when there is none |
| IssueMapper.KeyOfSplits | src/main/java/org/acme/github/issues/utils/GitHubIssueMapper.java:9-13 | splitting a key at its first ':' gives back the installation id and the node id, even when the node id holds ':' |
| IssueMapper.BuildV3Key | src/main/java/org/acme/github/issues/utils/GitHubIssueMapper.java:9-13 | the key of a payload splits back into the payload's installation id and issue node id |
| IssueMapper.BuildV3KeyInjective | src/main/java/org/acme/github/issues/utils/GitHubIssueMapper.java:9-13 | two payloads share a key if and only if they share the installation id and the issue node id |
| IssueMapper.KeyExample | src/main/java/org/acme/github/issues/utils/GitHubIssueMapper.java:9-13 | installation 42 and node "abc" give the key "42:abc" |
| IssueMapper.MapAssignees | src/main/java/org/acme/github/issues/utils/GitHubIssueMapper.java:20-26 | the assignee list keeps its length and order, and each element keeps `id` and `node_id` as `nodeId` |
| IssueMapper.MapV3Issue | src/main/java/org/acme/github/issues/utils/GitHubIssueMapper.java:15-47 | the projection field by field: ids, url, the repository reference, the author login, the assignees, body, number and title; the state upper-cased; `updated_at` as `updatedAt`; `created_at` as `publishedAt` |
| Tokens.ExpiredStaysExpired | src/main/java/com/cloudbees/sdm/api/AppTokens.java:138-141 | once a token is expired under the 30-second buffer, it stays expired as the clock advances |
| Tokens.IsExpired | src/main/java/com/cloudbees/sdm/api/AppTokens.java:138-141 | a token is served as fresh exactly while more than the 30-second buffer of its lifetime remains |
| Tokens.ExpiryBoundaryInclusive | src/main/java/com/cloudbees/sdm/api/AppTokens.java:138-141 | the boundary instant 30 seconds before expiry already counts as expired, and the millisecond before it does not |
| Tokens.NewAccessToken | src/main/java/com/cloudbees/sdm/api/AppTokens.java:119-132 | a wrapped token keeps its text. Its expiry is the decoded `exp` claim, or exactly now − 1 when the claims cannot be read. Claims without `exp` make the constructor throw, and that is the only failure |
| Tokens.UnparsableTokenIsExpired | src/main/java/com/cloudbees/sdm/api/AppTokens.java:119-141 | a token whose claims cannot be read is wrapped, and is expired from that moment at every later time |
| Tokens.AppClaims | src/main/java/com/cloudbees/sdm/api/AppTokens.java:81-89 | the app JWT is issued at now with the app id as subject; not-before is 5 minutes earlier and expiry 5 minutes later |
| Tokens.Bearer | src/main/java/com/cloudbees/sdm/api/AppTokens.java:62 | the header is the scheme "Bearer " followed by the token, which reads back after 7 characters |
| Tokens.AccountTokenUrl | src/main/java/com/cloudbees/sdm/api/AppTokens.java:54-58 | the URL starts with the endpoint, ends with "/accessToken", and the account reads back between the installations path and that suffix |
| Tokens.AccountTokenUrlInjective | src/main/java/com/cloudbees/sdm/api/AppTokens.java:54-58 | for one endpoint, two accounts share a token URL if and only if they are the same account |
| Tokens.PrivateKeyStep | src/main/java/com/cloudbees/sdm/api/AppTokens.java:104-113 | a loaded key is returned without a call. Otherwise the key is read once: on success it is kept; on failure the operation throws and nothing is kept. The token caches are untouched |
| Tokens.AppTokenStep | src/main/java/com/cloudbees/sdm/api/AppTokens.java:77-102 | a fresh app JWT is returned with no call. A mint loads the key as `PrivateKeyStep` does and stops if that throws. Otherwise the claims of `now` are signed as the last call; `SigningFailed` happens exactly when the signer fails. The signer's JWT is what is returned and cached, unless its claims carry no `exp`, which fails as `ExpiryMissing` and caches nothing. A failure keeps the old app token. Account tokens are never touched, and a loaded key is never reloaded |
| Tokens.AccountTokenStep | src/main/java/com/cloudbees/sdm/api/AppTokens.java:44-75 | a fresh cached entry is returned with no call and no change. A miss first takes `AppTokenStep`, keeping its key and app token, and stops if it fails; otherwise it posts to the account's URL with "Bearer " plus that JWT. The reply decides the outcome. A failed connection is `TransportFailed`. A non-2xx status is `ExchangeRejected` with that status. A 2xx body without `exp` is `ExpiryMissing`. Any other 2xx body is returned and cached for the account. None of these changes the key or the app token beyond `AppTokenStep`. A success is the body of a 2xx answer and overwrites only that account's entry. Any failure leaves every entry as it was, and a rejection carries the non-2xx status. There is at most one exchange, and it is the last call |
| Tokens.MintedAppTokenIsReused | src/main/java/com/cloudbees/sdm/api/AppTokens.java:77-102 | a newly minted app JWT whose expiry reads back is returned unchanged, with no call, by every request in the next 4.5 minutes |
| Tokens.UnparsableAccountTokenIsRefetched | src/main/java/com/cloudbees/sdm/api/AppTokens.java:44-75 | an account token whose claims cannot be read is never served from the cache: the next request for that account makes calls again, and ends with an exchange once it holds an app JWT |
| Tokens.StaleAccountTokenRefreshedByOneExchange | src/main/java/com/cloudbees/sdm/api/AppTokens.java:44-75 | an entry that expired 1 ms ago, with a fresh app JWT, costs exactly one exchange. A 200 answer replaces the entry with the new token; when that token has no `exp`, the call throws and the state is unchanged |
| Tokens.AppTokens.constructor | src/main/java/com/cloudbees/sdm/api/AppTokens.java:38-42 | stores the endpoint, the key text and the app id, with an empty key slot and empty caches |
| Tokens.AppTokens.GetAccountAccessToken | src/main/java/com/cloudbees/sdm/api/AppTokens.java:44-75 | the method's result, calls and new fields are exactly `AccountTokenStep` of the old fields |
| Tokens.AppTokens.AppAccessToken | src/main/java/com/cloudbees/sdm/api/AppTokens.java:77-102 | the method's result, calls and new fields are exactly `AppTokenStep` of the old fields |
| Tokens.AppTokens.GetPrivateKey | src/main/java/com/cloudbees/sdm/api/AppTokens.java:104-113 | the method's result, calls and new fields are exactly `PrivateKeyStep` of the old fields |
| SdmApi.ApiManagerToken | src/main/java/org/acme/github/issues/ApiManager.java:40-48 | `createToken` returns the token on success and null on an `IOException`. The unchecked exceptions escape: a key-read failure and a token without `exp` |
| SdmApi.RoundTripOverTokenManager | src/main/java/org/acme/github/issues/ApiManager.java:40-48 | when the token oracle answers as the token manager would, nothing is sent exactly when the key cannot be read or the token lacks `exp`. Otherwise the header is "Bearer " plus the manager's token, or "null" after an `IOException`; a fresh cached token needs no exchange |
| SdmApi.Authorization | src/main/java/org/acme/github/issues/model/SDMAuth.java:13-16 | the header starts with "Bearer ", followed by the token, or "null" when the token is null |
| SdmApi.RoundTrip | src/main/java/org/acme/github/issues/WebhookResource.java:63-66 | a token is asked for the account first. When that throws, nothing is sent. Otherwise exactly one request goes to that account, with header "Bearer " plus the token (or "null"), and the result is what the endpoint returned or threw |
| Config.ConfigQuery | src/main/java/org/acme/github/issues/ConfigManager.java:75-94 | the config query is operation `getConfigs` with the resource text and variables `{appId}` |
| Config.ParseAccounts | src/main/java/org/acme/github/issues/ConfigManager.java:63-67 | the inner loop succeeds exactly when every entry parses; its list has the entries' length and order |
| Config.ParseNode | src/main/java/org/acme/github/issues/ConfigManager.java:61-68 | a node gives its `account` and its parsed `githubAccounts`; it fails exactly when either is missing or an entry fails |
| Config.BuildFrom | src/main/java/org/acme/github/issues/ConfigManager.java:56-69 | every key of the built map is the account of some node, and a complete build has a key for every account the nodes name |
| Config.BuildStopsAtFailure | src/main/java/org/acme/github/issues/ConfigManager.java:57-69 | once a node throws, the nodes after it are never read |
| Config.BuildCompleteIffAllParse | src/main/java/org/acme/github/issues/ConfigManager.java:57-69 | the map is built to the end if and only if every node is well formed |
| Config.AccountsNamed | src/main/java/org/acme/github/issues/ConfigManager.java:61 | an account is among the nodes' accounts exactly when some node names it |
| Config.BuildKeys | src/main/java/org/acme/github/issues/ConfigManager.java:57-69 | a complete map has a key for exactly the accounts the nodes name |
| Config.BuildLastWins | src/main/java/org/acme/github/issues/ConfigManager.java:68 | an account named by several nodes maps to the installations of the last one |
| Config.BuildLoaded | src/main/java/org/acme/github/issues/ConfigManager.java:57-69 | every config in the map, partial maps included, has both fields set and a 32-bit id |
| Config.ParseEntries | src/main/java/org/acme/github/issues/ConfigManager.java:63-67 | the inner loop yields exactly `ParseAccounts` of the entries: every entry in order, or nothing once one throws |
| Config.BuildInstallations | src/main/java/org/acme/github/issues/ConfigManager.java:56-69 | the outer loop fills the map node by node and stops at the first malformed node, as `BuildFrom` specifies |
| Config.InstallationsStep | src/main/java/org/acme/github/issues/ConfigManager.java:46-73 | a memoised map is returned with no call. Otherwise one query goes to `acme-issues`. When the token or the query throws, the exception escapes and nothing is memoised. Reported errors give an empty map and memoise nothing. Data without `configs.nodes` memoises an empty map and throws. Otherwise the built map is memoised, and it is returned when the build completes. A memoised map is what is returned, and it is fully loaded |
| Config.NullTokenStillMemoises | src/main/java/org/acme/github/issues/ConfigManager.java:46-73 | when the token request returns null, the query is still sent with the header "Bearer null", and a reply without reported errors is memoised |
| Config.BuildExample | src/main/java/org/acme/github/issues/ConfigManager.java:57-69 | one node "acme" with installation 7 of "acme-gh" builds the map `{"acme": [acme-gh/7]}` |
| Config.ConfigManager.constructor | src/main/java/org/acme/github/issues/ConfigManager.java:43-44 | the query and the map start unset |
| Config.ConfigManager.GetConfigQuery | src/main/java/org/acme/github/issues/ConfigManager.java:75-94 | returns the config query, built on first use and then kept |
| Config.ConfigManager.GetInstallations | src/main/java/org/acme/github/issues/ConfigManager.java:46-73 | the method's result, calls and memo field are exactly `InstallationsStep` of the old memo; the memoised map stays fully loaded. The lazy query is built exactly when a request is about to be sent |
| Webhook.EnumerateKeys | src/main/java/org/acme/github/issues/WebhookResource.java:138-139 | the entry stream lists every key of the map exactly once, in an unspecified order |
| Webhook.FirstMatching | src/main/java/org/acme/github/issues/WebhookResource.java:138-142 | the result is the first key in the order whose list holds the id; it is none exactly when no listed key's list holds it |
| Webhook.LookupAccount | src/main/java/org/acme/github/issues/WebhookResource.java:135-143 | the account found is a map key whose list holds the installation id, and no earlier entry's list does; nothing is found if and only if no list holds the id |
| Webhook.LookupIgnoresOrder | src/main/java/org/acme/github/issues/WebhookResource.java:135-143 | when installation ids are unique across accounts, the iteration order cannot change the account found |
| Webhook.LookupExample | src/main/java/org/acme/github/issues/WebhookResource.java:135-143 | with `{"acme": [acme-gh/7]}`, installation 7 resolves to the key "acme" and 99 to nothing |
| Webhook.CreatePayload | src/main/java/org/acme/github/issues/WebhookResource.java:145-151 | every request body carries operation `AddGitHubIssues`, the given query text and the given variables |
| Webhook.Sent | src/main/java/org/acme/github/issues/WebhookResource.java:64-66 | a request carries the account, the body and "Bearer " plus the token the service gave |
| Webhook.IdOf | src/main/java/org/acme/github/issues/WebhookResource.java:119-126 | a lookup response with errors, or with zero nodes, gives no id. Without errors, the first node's id is returned; missing `gitHubIssues.nodes` or a first node without `id` throws |
| Webhook.LookupStep | src/main/java/org/acme/github/issues/WebhookResource.java:109-133 | `getDataId` sends the lookup by that key, for that account, exactly when a token is obtained. A returned response yields its `IdOf`; a token or query exception ends it |
| Webhook.UpdateStep | src/main/java/org/acme/github/issues/WebhookResource.java:87-107 | `executeUpdate` sends the update of that id with that data exactly when a token is obtained. It ends `Updated` exactly when the response has no errors and `UpdateRejected` exactly when it reports errors; a token or query exception ends it |
| Webhook.Fallback | src/main/java/org/acme/github/issues/WebhookResource.java:68-77 | after a failed create, the lookup by key is sent exactly when a token is obtained. An id found leads to exactly one more call, the update of that id with the same data, and the update decides the outcome. No id found means no update, and a malformed lookup response throws. An exception ends the event at that call |
| Webhook.Reconcile | src/main/java/org/acme/github/issues/WebhookResource.java:56-85 | the create with the key and mapped issue is sent exactly when a token is obtained. There are at most three calls, all for the account under `AddGitHubIssues`. `Created` holds exactly when that create is the only call and reported no errors. Only a create that reported errors is followed by the fallback for the same key and data. An exception from the create ends the event |
| Webhook.CreateWithoutErrorsIsTheOnlyCall | src/main/java/org/acme/github/issues/WebhookResource.java:56-85 | installation 7 and node "I1" send a create with key "7:I1"; when it reports no errors, nothing else is sent |
| Webhook.FallbackUpdatesFoundEntity | src/main/java/org/acme/github/issues/WebhookResource.java:68-77 | a create with errors followed by a lookup returning node "X1" sends exactly one update, of "X1" with the original mapped issue |
| Webhook.NoMatchMeansNoUpdate | src/main/java/org/acme/github/issues/WebhookResource.java:69-74 | a create with errors followed by a lookup with zero nodes ends unresolved, and no update is sent |
| Webhook.WebhookResource.constructor | src/main/java/org/acme/github/issues/WebhookResource.java:36-41 | the three query fields start unset |
| Webhook.WebhookResource.GetCreateDataMutation | src/main/java/org/acme/github/issues/WebhookResource.java:161-167 | returns the create-mutation resource text, loaded on first use and kept |
| Webhook.WebhookResource.GetUpdateDataMutation | src/main/java/org/acme/github/issues/WebhookResource.java:153-159 | returns the update-mutation resource text, loaded on first use and kept |
| Webhook.WebhookResource.GetDataQuery | src/main/java/org/acme/github/issues/WebhookResource.java:169-175 | returns the lookup-query resource text, loaded on first use and kept |
| Webhook.WebhookResource.Send | src/main/java/org/acme/github/issues/WebhookResource.java:64-66 | one token request and one query, exactly as `RoundTrip` specifies |
| Webhook.WebhookResource.GetDataId | src/main/java/org/acme/github/issues/WebhookResource.java:109-133 | the method's id and calls are exactly `LookupStep`, and the lookup query text is now loaded |
| Webhook.WebhookResource.ExecuteUpdate | src/main/java/org/acme/github/issues/WebhookResource.java:87-107 | the method's calls and outcome are exactly `UpdateStep`, and the update mutation text is now loaded |
| Webhook.WebhookResource.ExecuteCreate | src/main/java/org/acme/github/issues/WebhookResource.java:56-85 | the method's calls and outcome are exactly `Reconcile`. The create mutation text is always loaded afterwards. The lookup query text is loaded only on a fallback, and the update text only when that lookup finds an id |
| Webhook.WebhookResource.OnWebhook | src/main/java/org/acme/github/issues/WebhookResource.java:45-54 | the installations are fetched, updating the memo as `InstallationsStep` says. A failed fetch ends the event. Otherwise the installation id, narrowed to 32 bits, is resolved: when no account's list holds it, only the config calls are made; otherwise the account found holds it and the event continues with exactly `Reconcile` for that account. The query texts change only once an account is found, and the create mutation text is then loaded |

## Left out

- Parsing the PEM private key (`PrivateKeyUtils`), ES256 signing, and decoding a JWT's claims without verifying it. They are the oracles `readPrivateKey`, `sign` and `expirationOf` of `Tokens.Platform`.
- The random `jti` claim of the app JWT: it is not part of `Tokens.Claims`, because no property depends on it.
- The HTTP exchange with the token endpoint:
  - the URI-template expansion and percent-encoding of the account;
  - opening the connection and reading the body as UTF-8.
  The endpoint is the oracle `post`. Every `IOException` of the connection becomes `TransportFailed`.
- The clock: the source reads it several times in one operation (issue time, expiry check, fallback expiry). The model gives each operation one instant, `now`.
- The oracles are functions. The same request gets the same answer within one event, and repeated `createToken` calls for an account return the same token.
- The token service that `WebhookResource` and `ConfigManager` call is the `SdmApi.Backend` oracle. The oracle is unconstrained by default. `SdmApi.TokenServedBy` states that it answers as `ApiManagerToken` over one `AccountTokenStep` from a given token state, and `SdmApi.RoundTripOverTokenManager` states what a round trip then sends. The token cache's state is not threaded through the calls of one event.
- Concurrency: the caches and the memoised map are shared by concurrent requests without locking. The model is sequential.
- Logging: every log line is left out. The model records only the calls made and the outcome.
- Loading the GraphQL and key resources from the classpath. Their texts are the constants `Webhook.Queries` and `Config.ConfigManager.configQueryText`. A resource that fails to load, which gives a null query text, is not modelled.
- JSON nulls and shape errors in the webhook payload, the mapped issue and the GraphQL responses. Examples are a null issue `body` (for which `getString` throws) and a response without an `errors` array. The payload is a typed record and `errors` is always a list. The shape failures that are modelled are:
  - `data` without `configs.nodes` or without `gitHubIssues.nodes`;
  - a config node or entry missing a field;
  - a lookup node without `id`.
- Mapped numbers that are not integral, and the exact JSON rendering of numbers other than the key's installation id.
- `AppConfigs.StringHash`: hashes the Unicode scalar values of the string, while Java hashes its UTF-16 code units. A character outside the Basic Multilingual Plane therefore hashes differently.
- Which tokens the JWT consumer rejects as unreadable is decided by the decoder oracle `expirationOf`. An example is a token whose `exp` has already passed or that names an unexpected audience.
- `Java.ToUpperCase`: upper-cases the ASCII letters only. Locale-dependent and non-ASCII case mapping is not modelled.
- The HTTP response that the JAX-RS runtime makes of an exception escaping `onWebhook`: the model records `Aborted` and its cause.
- `Tokens.MintedAppTokenIsReused`: assumes the decoded `exp` claim reads back within one second of the value set, and claims reuse for 4.5 minutes less that second rather than up to the exact boundary.
- `Tokens.UnparsableAccountTokenIsRefetched`: states the exchange only when the app-token step at the later time succeeds. Otherwise the refetch stops earlier, at the key read or the signing.
- `DatabaseManager`, `SDMApiClient`, `SDMAuth` beyond its header, and the UI are not part of this model.
