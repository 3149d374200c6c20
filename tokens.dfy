/**
 * The platform-app credential manager: one cached app JWT, minted and signed
 * locally, and one cached account token per account, obtained by exchanging
 * the app JWT at the platform's installation-token endpoint.
 *
 * The clock is the parameter `now` (milliseconds). Key parsing, JWS signing,
 * JWT claim decoding and the HTTP exchange are the oracles of `Platform`.
 * Each operation is specified by a step function on `TokenState`; the class
 * `AppTokens` holds that state in fields and its methods are proved to take
 * exactly those steps.
 */
module Tokens {
  import opened Wrappers
  import Java

  /** Tokens that expire within this margin are treated as expired already. */
  const AccessTokenValidityBufferMillis: int := 30 * 1000
  /** Clock-skew allowance of the app JWT on both sides of its issue time. */
  const AppTokenSkewMillis: int := 5 * 60 * 1000

  /** An opaque handle on a parsed private key. */
  datatype PrivateKey = PrivateKey(handle: string)

  /** The registered claims set on the app JWT (section 4.1 of RFC 7519), in milliseconds. */
  datatype Claims = Claims(notBeforeMillis: int, issuedAtMillis: int, expirationMillis: int, subject: string)

  /** A cached bearer token and the expiry decoded from its own claims. */
  datatype AccessToken = AccessToken(token: string, expiresMillis: int)

  datatype TokenError =
    | KeyUnreadable             // IllegalStateException out of getPrivateKey
    | SigningFailed             // "Could not sign Application JWT"
    | ExchangeRejected(status: int)  // "Could not retrieve access token (httpErrorCode:...)"
    | TransportFailed           // any other IOException of the connection
    | ExpiryMissing             // NullPointerException: the token's claims carry no `exp`

  /** What decoding a token's claims, without verifying its signature, yields. */
  datatype ExpiryClaim =
    | Expires(millis: int)      // the `exp` claim, in milliseconds
    | NoExpiry                  // the claims parse but hold no `exp`
    | Unreadable                // InvalidJwtException or MalformedClaimException

  /** What the installation-token endpoint does with one POST. */
  datatype ExchangeOutcome = HttpResponse(status: int, body: string) | ConnectionFailed

  /** The outbound effects of the token manager, in the order they happen. */
  datatype TokenCall =
    | LoadPrivateKey
    | SignAppJwt(claims: Claims)
    | PostForAccountToken(url: string, authorization: string)

  /** The collaborators outside the core, as functions of their inputs. */
  datatype Platform = Platform(
    readPrivateKey: string -> Option<PrivateKey>,        // PEM text to key, or an IOException
    sign: (Claims, PrivateKey) -> Option<string>,        // ES256 compact serialization, or a JoseException
    expirationOf: string -> ExpiryClaim,                 // the token's own exp claim
    post: (string, string) -> ExchangeOutcome)           // URL and Authorization header to the response

  /** A token is expired once its expiry is within the 30-second buffer of `now`, the boundary included. */
  predicate IsExpired(t: AccessToken, now: int)
    // served as fresh only while more than the buffer remains
    ensures !IsExpired(t, now) <==> t.expiresMillis - now > AccessTokenValidityBufferMillis
  {
    t.expiresMillis <= now + AccessTokenValidityBufferMillis
  }

  /** The boundary is inclusive: a token is expired exactly from 30 seconds before its expiry on. */
  lemma ExpiryBoundaryInclusive(t: AccessToken)
    ensures IsExpired(t, t.expiresMillis - AccessTokenValidityBufferMillis)
    ensures !IsExpired(t, t.expiresMillis - AccessTokenValidityBufferMillis - 1)
  {
  }

  /** An expired token stays expired as the clock moves on. */
  lemma ExpiredStaysExpired(t: AccessToken, now: int, later: int)
    requires now <= later
    requires IsExpired(t, now)
    ensures IsExpired(t, later)
  {
  }

  /**
   * The `AccessToken` constructor: the expiry is the token's own `exp` claim;
   * claims that cannot be read give `now - 1`; claims without `exp` make the
   * constructor dereference a null date and throw, so no token is built.
   */
  function NewAccessToken(token: string, p: Platform, now: int): (r: Result<AccessToken, TokenError>)
    ensures r.Failure? <==> p.expirationOf(token).NoExpiry?
    ensures r.Failure? ==> r.error == ExpiryMissing
    ensures r.Success? ==> r.value.token == token
    ensures p.expirationOf(token).Expires? ==> r.Success? && r.value.expiresMillis == p.expirationOf(token).millis
    ensures p.expirationOf(token).Unreadable? ==> r.Success? && r.value.expiresMillis == now - 1
  {
    match p.expirationOf(token)
    case Expires(exp) => Success(AccessToken(token, exp))
    case Unreadable => Success(AccessToken(token, now - 1))
    case NoExpiry => Failure(ExpiryMissing)
  }

  /** A token whose claims cannot be read is expired from the moment it is wrapped, and stays so. */
  lemma UnparsableTokenIsExpired(token: string, p: Platform, now: int, later: int)
    requires p.expirationOf(token).Unreadable?
    requires now <= later
    ensures NewAccessToken(token, p, now).Success?
    ensures IsExpired(NewAccessToken(token, p, now).value, later)
  {
  }

  /** The claims of an app JWT issued at `now`. */
  function AppClaims(appId: string, now: int): (c: Claims)
    ensures c.issuedAtMillis == now && c.subject == appId
    ensures c.notBeforeMillis == now - AppTokenSkewMillis
    ensures c.expirationMillis == now + AppTokenSkewMillis
  {
    Claims(now - AppTokenSkewMillis, now, now + AppTokenSkewMillis, appId)
  }

  /**
   * The assumption under which a minted JWT is reused: its `exp` claim reads
   * back to within a second of what was set (the JWT library keeps seconds).
   */
  predicate ExpirationReadsBack(read: int, minted: int) {
    minted - 1000 < read < minted + 1000
  }

  /** An `Authorization` header value: the scheme "Bearer ", after which the token reads back. */
  function Bearer(token: string): (header: string)
    ensures |header| == 7 + |token| && header[..7] == "Bearer " && header[7..] == token
  {
    "Bearer " + token
  }

  const InstallationsPath: string := "/platform/api/app/installations/"
  const AccessTokenSuffix: string := "/accessToken"

  /** The account's token URL: the endpoint, the installations path, the account, "/accessToken". */
  function AccountTokenUrl(platformEndpoint: string, account: string): (url: string)
    ensures |url| == |platformEndpoint| + 32 + |account| + 12
    ensures url[..|platformEndpoint|] == platformEndpoint
    ensures url[|platformEndpoint| + 32..|url| - 12] == account
    ensures url[|url| - 12..] == AccessTokenSuffix
  {
    var url := platformEndpoint + InstallationsPath + account + AccessTokenSuffix;
    assert url[|platformEndpoint| + 32..|url| - 12] == account;
    url
  }

  /** Distinct accounts of one endpoint exchange at distinct URLs. */
  lemma AccountTokenUrlInjective(platformEndpoint: string, a: string, b: string)
    ensures AccountTokenUrl(platformEndpoint, a) == AccountTokenUrl(platformEndpoint, b) <==> a == b
  {
    var ua, ub := AccountTokenUrl(platformEndpoint, a), AccountTokenUrl(platformEndpoint, b);
    if ua == ub {
      assert a == ua[|platformEndpoint| + 32..|ua| - 12];
    }
  }

  /** The source's `status / 100 == 2`, with Java's truncating division. */
  predicate IsSuccessStatus(status: int) {
    Java.TruncDiv(status, 100) == 2
  }

  /** What the endpoint answered to one exchange call. */
  function Answer(p: Platform, c: TokenCall): ExchangeOutcome
    requires c.PostForAccountToken?
  {
    p.post(c.url, c.authorization)
  }

  /** The mutable state of the token manager. */
  datatype TokenState = TokenState(
    privateKey: Option<PrivateKey>,
    appToken: Option<AccessToken>,
    accountTokens: map<string, AccessToken>)

  /** What an operation leaves behind: the new state, its value or error, and the calls it made. */
  datatype Step<T> = Step(state: TokenState, result: Result<T, TokenError>, calls: seq<TokenCall>)

  predicate AppTokenFresh(s: TokenState, now: int) {
    s.appToken.Some? && !IsExpired(s.appToken.value, now)
  }

  predicate AccountTokenFresh(s: TokenState, account: string, now: int) {
    account in s.accountTokens && !IsExpired(s.accountTokens[account], now)
  }

  /** `getPrivateKey`: the key is read once and kept; a failed read throws and keeps nothing. */
  function PrivateKeyStep(privateKeyStr: string, s: TokenState, p: Platform): (r: Step<PrivateKey>)
    ensures r.state.appToken == s.appToken && r.state.accountTokens == s.accountTokens
    ensures s.privateKey.Some? ==> r == Step(s, Success(s.privateKey.value), [])
    ensures s.privateKey.None? ==> r.calls == [LoadPrivateKey]
    ensures s.privateKey.None? ==>
      match p.readPrivateKey(privateKeyStr)
      case None => r.result == Failure(KeyUnreadable) && r.state == s
      case Some(k) => r.result == Success(k) && r.state.privateKey == Some(k)
  {
    match s.privateKey
    case Some(k) => Step(s, Success(k), [])
    case None =>
      match p.readPrivateKey(privateKeyStr)
      case None => Step(s, Failure(KeyUnreadable), [LoadPrivateKey])
      case Some(k) => Step(s.(privateKey := Some(k)), Success(k), [LoadPrivateKey])
  }

  /** `appAccessToken`: serve the cached app JWT while fresh, otherwise mint, sign and cache a new one. */
  function AppTokenStep(appId: string, privateKeyStr: string, s: TokenState, now: int, p: Platform): (r: Step<string>)
    ensures AppTokenFresh(s, now) ==> r == Step(s, Success(s.appToken.value.token), [])
    // a mint loads the key as `getPrivateKey` does, and stops there if that throws
    ensures !AppTokenFresh(s, now) ==>
      var key := PrivateKeyStep(privateKeyStr, s, p);
      && r.state.privateKey == key.state.privateKey
      && (key.result.Failure? ==> r == Step(key.state, Failure(key.result.error), key.calls))
    // with the key, the claims of `now` are signed, and the signer's JWT is what is cached and returned
    ensures !AppTokenFresh(s, now) && PrivateKeyStep(privateKeyStr, s, p).result.Success? ==>
      var key := PrivateKeyStep(privateKeyStr, s, p);
      var signed := p.sign(AppClaims(appId, now), key.result.value);
      && r.calls == key.calls + [SignAppJwt(AppClaims(appId, now))]
      && (signed.None? <==> r.result == Failure(SigningFailed))
      && (signed.Some? ==> (r.result.Success? <==> NewAccessToken(signed.value, p, now).Success?))
      && (r.result.Success? ==> r.result.value == signed.value)
      // a signed JWT whose claims carry no `exp` fails as the missing expiry, caching nothing
      && (signed.Some? && NewAccessToken(signed.value, p, now).Failure? ==>
            r.result == Failure(ExpiryMissing) && r.state == key.state)
    ensures !AppTokenFresh(s, now) && r.result.Success? ==>
      && NewAccessToken(r.result.value, p, now).Success?
      && r.state.appToken == Some(NewAccessToken(r.result.value, p, now).value)
    ensures r.result.Failure? ==> r.state.appToken == s.appToken
    ensures r.result.Failure? ==> r.result.error in {KeyUnreadable, SigningFailed, ExpiryMissing}
    ensures r.state.accountTokens == s.accountTokens
    ensures s.privateKey.Some? ==> r.state.privateKey == s.privateKey && LoadPrivateKey !in r.calls
    ensures r.state.privateKey.None? ==> s.privateKey.None?
  {
    if AppTokenFresh(s, now) then
      Step(s, Success(s.appToken.value.token), [])
    else
      var claims := AppClaims(appId, now);
      var key := PrivateKeyStep(privateKeyStr, s, p);
      match key.result
      case Failure(e) => Step(key.state, Failure(e), key.calls)
      case Success(k) =>
        var calls := key.calls + [SignAppJwt(claims)];
        match p.sign(claims, k)
        case None => Step(key.state, Failure(SigningFailed), calls)
        case Some(jwt) =>
          match NewAccessToken(jwt, p, now)
          case Failure(e) => Step(key.state, Failure(e), calls)
          case Success(t) => Step(key.state.(appToken := Some(t)), Success(jwt), calls)
  }

  /**
   * `getAccountAccessToken`: serve the account's cached token while fresh;
   * otherwise exchange the app JWT for a new one, caching it only on a 2xx.
   */
  function AccountTokenStep(platformEndpoint: string, appId: string, privateKeyStr: string,
                            s: TokenState, account: string, now: int, p: Platform): (r: Step<string>)
    // a cache hit makes no call and changes nothing
    ensures AccountTokenFresh(s, account, now) ==> r == Step(s, Success(s.accountTokens[account].token), [])
    // a miss first obtains the app JWT, keeping what that step did to the key and the app token
    ensures !AccountTokenFresh(s, account, now) ==>
      var app := AppTokenStep(appId, privateKeyStr, s, now, p);
      && r.state.privateKey == app.state.privateKey
      && r.state.appToken == app.state.appToken
      && (app.result.Failure? ==> r == Step(app.state, Failure(app.result.error), app.calls))
      // and then posts to the account's URL with that JWT as bearer credential
      && (app.result.Success? ==>
            r.calls == app.calls + [PostForAccountToken(AccountTokenUrl(platformEndpoint, account),
                                                        Bearer(app.result.value))])
    // the exchange's reply decides the outcome: a connection failure, a rejected status,
    // a token without `exp`, or the token itself, then cached for the account
    ensures !AccountTokenFresh(s, account, now) && AppTokenStep(appId, privateKeyStr, s, now, p).result.Success? ==>
      var app := AppTokenStep(appId, privateKeyStr, s, now, p);
      match p.post(AccountTokenUrl(platformEndpoint, account), Bearer(app.result.value))
      case ConnectionFailed => r.result == Failure(TransportFailed) && r.state == app.state
      case HttpResponse(status, body) =>
        && (!(200 <= status <= 299) ==> r.result == Failure(ExchangeRejected(status)) && r.state == app.state)
        && (200 <= status <= 299 && p.expirationOf(body).NoExpiry? ==>
              r.result == Failure(ExpiryMissing) && r.state == app.state)
        && (200 <= status <= 299 && !p.expirationOf(body).NoExpiry? ==>
              && r.result == Success(body)
              && r.state == app.state.(accountTokens := s.accountTokens[account := NewAccessToken(body, p, now).value]))
    // a success on a miss is the body of a 2xx, now that account's entry
    ensures !AccountTokenFresh(s, account, now) && r.result.Success? ==>
      && r.calls != []
      && r.calls[|r.calls| - 1].PostForAccountToken?
      && r.calls[|r.calls| - 1].url == AccountTokenUrl(platformEndpoint, account)
      && NewAccessToken(r.result.value, p, now).Success?
      && r.state.accountTokens == s.accountTokens[account := NewAccessToken(r.result.value, p, now).value]
      && var answer := Answer(p, r.calls[|r.calls| - 1]);
         answer.HttpResponse? && 200 <= answer.status <= 299 && answer.body == r.result.value
    // any failure leaves every account entry as it was
    ensures r.result.Failure? ==> r.state.accountTokens == s.accountTokens
    // a rejected exchange carries the status the endpoint answered with
    ensures r.result.Failure? && r.result.error.ExchangeRejected? ==>
      && r.calls != [] && r.calls[|r.calls| - 1].PostForAccountToken?
      && var answer := Answer(p, r.calls[|r.calls| - 1]);
         answer.HttpResponse? && answer.status == r.result.error.status && !(200 <= answer.status <= 299)
    // at most one exchange, and it is the last call
    ensures forall i :: 0 <= i < |r.calls| - 1 ==> !r.calls[i].PostForAccountToken?
    ensures s.privateKey.Some? ==> r.state.privateKey == s.privateKey
  {
    if AccountTokenFresh(s, account, now) then
      Step(s, Success(s.accountTokens[account].token), [])
    else
      var app := AppTokenStep(appId, privateKeyStr, s, now, p);
      match app.result
      case Failure(e) => Step(app.state, Failure(e), app.calls)
      case Success(appJwt) =>
        var url := AccountTokenUrl(platformEndpoint, account);
        var calls := app.calls + [PostForAccountToken(url, Bearer(appJwt))];
        match p.post(url, Bearer(appJwt))
        case ConnectionFailed => Step(app.state, Failure(TransportFailed), calls)
        case HttpResponse(status, body) =>
          Java.TruncDivByHundredIsTwo(status);
          if IsSuccessStatus(status) then
            match NewAccessToken(body, p, now)
            case Failure(e) => Step(app.state, Failure(e), calls)
            case Success(t) => Step(app.state.(accountTokens := app.state.accountTokens[account := t]), Success(body), calls)
          else
            Step(app.state, Failure(ExchangeRejected(status)), calls)
  }

  // ---------------------------------------------------------------------------
  // Properties relating several steps

  /**
   * A freshly minted app JWT whose `exp` reads back is reused, without signing
   * again, by every call made less than 4.5 minutes later.
   */
  lemma MintedAppTokenIsReused(appId: string, privateKeyStr: string, s: TokenState, now: int, later: int, p: Platform)
    requires !AppTokenFresh(s, now)
    requires AppTokenStep(appId, privateKeyStr, s, now, p).result.Success?
    requires var jwt := AppTokenStep(appId, privateKeyStr, s, now, p).result.value;
             p.expirationOf(jwt).Expires? &&
             ExpirationReadsBack(p.expirationOf(jwt).millis, AppClaims(appId, now).expirationMillis)
    requires now <= later < now + AppTokenSkewMillis - AccessTokenValidityBufferMillis - 1000
    ensures var first := AppTokenStep(appId, privateKeyStr, s, now, p);
            AppTokenStep(appId, privateKeyStr, first.state, later, p) == Step(first.state, first.result, [])
  {
    var first := AppTokenStep(appId, privateKeyStr, s, now, p);
    assert AppTokenFresh(first.state, later);
  }

  /**
   * An account token whose claims cannot be read is cached but never served:
   * the next request for that account, at any later time, goes back to the
   * platform, and exchanges again once it holds an app JWT.
   */
  lemma UnparsableAccountTokenIsRefetched(platformEndpoint: string, appId: string, privateKeyStr: string,
                                          s: TokenState, account: string, now: int, later: int, p: Platform)
    requires !AccountTokenFresh(s, account, now)
    requires AccountTokenStep(platformEndpoint, appId, privateKeyStr, s, account, now, p).result.Success?
    requires p.expirationOf(AccountTokenStep(platformEndpoint, appId, privateKeyStr, s, account, now, p).result.value).Unreadable?
    requires now <= later
    ensures var first := AccountTokenStep(platformEndpoint, appId, privateKeyStr, s, account, now, p);
            var second := AccountTokenStep(platformEndpoint, appId, privateKeyStr, first.state, account, later, p);
            && second.calls != []
            && (AppTokenStep(appId, privateKeyStr, first.state, later, p).result.Success? ==>
                  second.calls[|second.calls| - 1] == PostForAccountToken(
                    AccountTokenUrl(platformEndpoint, account),
                    Bearer(AppTokenStep(appId, privateKeyStr, first.state, later, p).result.value)))
  {
    var first := AccountTokenStep(platformEndpoint, appId, privateKeyStr, s, account, now, p);
    assert first.state.accountTokens[account] == NewAccessToken(first.result.value, p, now).value;
    UnparsableTokenIsExpired(first.result.value, p, now, later);
    assert !AccountTokenFresh(first.state, account, later);
  }

  /**
   * A stale account entry with a fresh app JWT in hand costs exactly one
   * exchange call. A 200 answer replaces that entry, unless the new token has
   * no `exp` claim: then the constructor throws and the entry is kept.
   */
  lemma StaleAccountTokenRefreshedByOneExchange(platformEndpoint: string, appId: string, privateKeyStr: string,
                                                s: TokenState, account: string, now: int, p: Platform)
    requires account in s.accountTokens && s.accountTokens[account].expiresMillis == now - 1
    requires AppTokenFresh(s, now)
    requires var url := AccountTokenUrl(platformEndpoint, account);
             p.post(url, Bearer(s.appToken.value.token)).HttpResponse? &&
             p.post(url, Bearer(s.appToken.value.token)).status == 200
    ensures var url := AccountTokenUrl(platformEndpoint, account);
            var body := p.post(url, Bearer(s.appToken.value.token)).body;
            var r := AccountTokenStep(platformEndpoint, appId, privateKeyStr, s, account, now, p);
            && r.calls == [PostForAccountToken(url, Bearer(s.appToken.value.token))]
            && (p.expirationOf(body).NoExpiry? ==> r.result == Failure(ExpiryMissing) && r.state == s)
            && (!p.expirationOf(body).NoExpiry? ==>
                  r.result == Success(body) && r.state.accountTokens[account] == NewAccessToken(body, p, now).value)
  {
  }

  // ---------------------------------------------------------------------------
  // The stateful object

  class AppTokens {
    const platformEndpoint: string
    const privateKeyStr: string
    const appId: string

    var privateKey: Option<PrivateKey>
    var appAccessToken: Option<AccessToken>
    var accountAccessTokens: map<string, AccessToken>

    function State(): TokenState
      reads this
    {
      TokenState(privateKey, appAccessToken, accountAccessTokens)
    }

    constructor (platformEndpoint: string, privateKeyStr: string, appId: string)
      ensures this.platformEndpoint == platformEndpoint
      ensures this.privateKeyStr == privateKeyStr && this.appId == appId
      ensures State() == TokenState(None, None, map[])
    {
      this.platformEndpoint := platformEndpoint;
      this.privateKeyStr := privateKeyStr;
      this.appId := appId;
      privateKey := None;
      appAccessToken := None;
      accountAccessTokens := map[];
    }

    method GetAccountAccessToken(account: string, now: int, p: Platform)
      returns (token: Result<string, TokenError>, calls: seq<TokenCall>)
      modifies this
      ensures Step(State(), token, calls)
              == AccountTokenStep(platformEndpoint, appId, privateKeyStr, old(State()), account, now, p)
    {
      if account in accountAccessTokens && !IsExpired(accountAccessTokens[account], now) {
        return Success(accountAccessTokens[account].token), [];
      }
      var appToken;
      appToken, calls := AppAccessToken(now, p);
      if appToken.Failure? {
        return Failure(appToken.error), calls;
      }
      var url := AccountTokenUrl(platformEndpoint, account);
      calls := calls + [PostForAccountToken(url, Bearer(appToken.value))];
      var response := p.post(url, Bearer(appToken.value));
      match response {
        case ConnectionFailed =>
          token := Failure(TransportFailed);
        case HttpResponse(status, body) =>
          if IsSuccessStatus(status) {
            var wrapped := NewAccessToken(body, p, now);
            if wrapped.Failure? {
              return Failure(wrapped.error), calls;
            }
            accountAccessTokens := accountAccessTokens[account := wrapped.value];
            token := Success(body);
          } else {
            token := Failure(ExchangeRejected(status));
          }
      }
    }

    method AppAccessToken(now: int, p: Platform) returns (token: Result<string, TokenError>, calls: seq<TokenCall>)
      modifies this`privateKey, this`appAccessToken
      ensures Step(State(), token, calls) == AppTokenStep(appId, privateKeyStr, old(State()), now, p)
    {
      if appAccessToken.Some? && !IsExpired(appAccessToken.value, now) {
        return Success(appAccessToken.value.token), [];
      }
      var claims := AppClaims(appId, now);
      var key;
      key, calls := GetPrivateKey(p);
      if key.Failure? {
        return Failure(key.error), calls;
      }
      calls := calls + [SignAppJwt(claims)];
      var signed := p.sign(claims, key.value);
      if signed.None? {
        return Failure(SigningFailed), calls;
      }
      var wrapped := NewAccessToken(signed.value, p, now);
      if wrapped.Failure? {
        return Failure(wrapped.error), calls;
      }
      appAccessToken := Some(wrapped.value);
      token := Success(signed.value);
    }

    method GetPrivateKey(p: Platform) returns (key: Result<PrivateKey, TokenError>, calls: seq<TokenCall>)
      modifies this`privateKey
      ensures Step(State(), key, calls) == PrivateKeyStep(privateKeyStr, old(State()), p)
    {
      calls := [];
      if privateKey.None? {
        calls := [LoadPrivateKey];
        var read := p.readPrivateKey(privateKeyStr);
        if read.None? {
          return Failure(KeyUnreadable), calls;
        }
        privateKey := read;
      }
      key := Success(privateKey.value);
    }
  }
}
