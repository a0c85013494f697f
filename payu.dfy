/** `PayUClient` (app/payu.py): the OAuth 2.0 client-credentials token cache
    (section 4.4 of RFC 6749, with the client authenticated by HTTP Basic
    credentials as in RFC 7617) and the order-creation request sent with a
    Bearer token (section 2.1 of RFC 6750). The two HTTP endpoints are function
    parameters: the network is not part of the model. */
module PayU {
  import opened Base
  import opened Numerals

  const OAuthUrl := "https://secure.snd.payu.com/pl/standard/user/oauth/authorize"
  const OrdersUrl := "https://secure.snd.payu.com/api/v2_1/orders"

  /** A cached token is not used in its last 30 seconds. */
  const SafetyMargin: real := 30.0
  /** Token lifetime in seconds when the grant does not state `expires_in`. */
  const DefaultExpiresIn: int := 300
  const AuthTimeout: nat := 15
  const OrderTimeout: nat := 20

  const DefaultCustomerIp := "127.0.0.1"
  const DefaultCurrency := "PLN"

  /** The text of the `KeyError` raised when the grant has no `access_token`. */
  const MissingAccessTokenMessage := "'access_token'"

  /** `str.rstrip("/")`: the longest prefix that does not end in '/', all of
      whose removed characters are '/'. */
  function StripTrailingSlashes(s: string): (r: string)
    ensures |r| <= |s| && r == s[..|r|]
    ensures r == [] || r[|r| - 1] != '/'
    ensures forall i :: |r| <= i < |s| ==> s[i] == '/'
  {
    if s != [] && s[|s| - 1] == '/' then StripTrailingSlashes(s[..|s| - 1]) else s
  }

  /** Stripping twice strips nothing more. */
  lemma StripTrailingSlashesIdempotent(s: string)
    ensures StripTrailingSlashes(StripTrailingSlashes(s)) == StripTrailingSlashes(s)
  {
  }

  // ----- Token endpoint -----

  /** The user-pass of the Basic credentials (RFC 7617 section 2), before base64. */
  function BasicUserPass(posId: string, clientSecret: string): string {
    posId + ":" + clientSecret
  }

  /** Splitting a user-pass at its first colon, as the authorization server does. */
  function SplitUserPass(userPass: string): Option<(string, string)> {
    match IndexOf(userPass, ':')
    case None => None
    case Some(i) => Some((userPass[..i], userPass[i + 1..]))
  }

  /** The server recovers the POS id and the secret from the user-pass when the
      POS id has no colon, as RFC 7617 requires of a user-id. */
  lemma BasicUserPassSplits(posId: string, clientSecret: string)
    requires ':' !in posId
    ensures SplitUserPass(BasicUserPass(posId, clientSecret)) == Some((posId, clientSecret))
  {
    var up := BasicUserPass(posId, clientSecret);
    assert up[..|posId|] == posId && up[|posId|] == ':' && up[|posId| + 1..] == clientSecret;
    assert IndexOf(up, ':') == Some(|posId|);
  }

  /** The token request: form-encoded `grant_type=client_credentials` with Basic credentials. */
  datatype TokenRequest = TokenRequest(
    url: string, basicUserPass: string, contentType: string, grantType: string, timeout: nat)

  /** What `int(body.get("expires_in", 300))` meets in the grant. */
  datatype ExpiresIn = Absent | Seconds(seconds: int) | NotAnInteger(message: string)

  /** The token endpoint's answer as the client reads it: a grant, a 2xx body
      without `access_token`, or an exception from the request, from
      `raise_for_status` or from decoding the body (with its message). */
  datatype TokenResponse =
    | Granted(accessToken: string, expiresIn: ExpiresIn)
    | NoAccessToken
    | Failed(message: string)

  /** The fields `_token` and `_token_exp`. */
  datatype TokenCache = TokenCache(token: Option<string>, expiry: real) {
    /** The cached token is returned without a request: it is a non-empty
        string and `now` is more than the margin before its expiry. */
    predicate Reusable(now: real) {
      token.Some? && token.value != "" && now < expiry - SafetyMargin
    }
  }

  /** A new client has no token and expiry 0. */
  const InitialCache := TokenCache(None, 0.0)

  /** One `_get_access_token` call: the new cache, the token or the message of
      the exception raised, and whether the token endpoint was called. */
  datatype TokenStepResult = TokenStepResult(cache: TokenCache, result: Result<string, string>, refreshed: bool)

  /** The lifetime a grant gives its token. */
  function Lifetime(e: ExpiresIn): int
    requires !e.NotAnInteger?
  {
    if e.Absent? then DefaultExpiresIn else e.seconds
  }

  /** `_get_access_token` at time `now`, where `response` is what the token
      endpoint would answer. The token is stored before its lifetime is read, so
      a lifetime that is not an integer leaves the new token with the old expiry. */
  function TokenStep(cache: TokenCache, now: real, response: TokenResponse): (r: TokenStepResult)
    ensures r.result.Ok? ==> r.cache.token == Some(r.result.value)
    ensures r.cache.token != cache.token ==> r.refreshed && response.Granted?
    ensures r.cache.expiry != cache.expiry ==> r.result.Ok? && r.refreshed
  {
    if cache.Reusable(now) then TokenStepResult(cache, Ok(cache.token.value), false)
    else
      match response
      case Failed(message) => TokenStepResult(cache, Err(message), true)
      case NoAccessToken => TokenStepResult(cache, Err(MissingAccessTokenMessage), true)
      case Granted(access, NotAnInteger(message)) =>
        TokenStepResult(TokenCache(Some(access), cache.expiry), Err(message), true)
      case Granted(access, expiresIn) =>
        TokenStepResult(TokenCache(Some(access), now + Lifetime(expiresIn) as real), Ok(access), true)
  }

  /** The endpoint is called exactly when the cache is not reusable; otherwise
      the cached token is returned and nothing changes. */
  lemma TokenStepRefreshesIffNotReusable(cache: TokenCache, now: real, response: TokenResponse)
    ensures TokenStep(cache, now, response).refreshed <==> !cache.Reusable(now)
    ensures cache.Reusable(now) ==>
              TokenStep(cache, now, response) == TokenStepResult(cache, Ok(cache.token.value), false)
  {
  }

  /** The first call on a new client always goes to the token endpoint. */
  lemma FirstCallRefreshes(now: real, response: TokenResponse)
    ensures TokenStep(InitialCache, now, response).refreshed
  {
  }

  /** Within the margin before expiry, or past it, the token is refreshed. */
  lemma ExpiringTokenRefreshes(cache: TokenCache, now: real, response: TokenResponse)
    requires now >= cache.expiry - SafetyMargin
    ensures TokenStep(cache, now, response).refreshed
  {
  }

  /** A successful refresh caches the granted token until now + expires_in
      (300 seconds when absent) and returns it. */
  lemma SuccessfulRefresh(cache: TokenCache, now: real, access: string, expiresIn: ExpiresIn)
    requires !cache.Reusable(now) && !expiresIn.NotAnInteger?
    ensures TokenStep(cache, now, Granted(access, expiresIn)) ==
              TokenStepResult(TokenCache(Some(access), now + Lifetime(expiresIn) as real), Ok(access), true)
    ensures expiresIn.Absent? ==> TokenStep(cache, now, Granted(access, expiresIn)).cache.expiry == now + 300.0
  {
  }

  /** An HTTP failure or a body without `access_token` raises and leaves both
      fields as they were. */
  lemma FailedRefreshKeepsCache(cache: TokenCache, now: real, response: TokenResponse)
    requires !cache.Reusable(now) && (response.Failed? || response.NoAccessToken?)
    ensures TokenStep(cache, now, response).cache == cache
    ensures TokenStep(cache, now, response).result.Err?
    ensures response.NoAccessToken? ==> TokenStep(cache, now, response).result == Err("'access_token'")
  {
  }

  /** A lifetime that is not an integer raises after the token was stored: the
      new token is kept with the old expiry. */
  lemma UnreadableLifetimeKeepsExpiry(cache: TokenCache, now: real, access: string, message: string)
    requires !cache.Reusable(now)
    ensures TokenStep(cache, now, Granted(access, NotAnInteger(message))) ==
              TokenStepResult(TokenCache(Some(access), cache.expiry), Err(message), true)
  {
  }

  /** Two calls, the first refreshing with a non-empty token, the second before
      the token's lifetime less the margin has passed: exactly one refresh, and
      both calls return the granted token. */
  lemma OneRefreshWithinLifetime(cache: TokenCache, t1: real, t2: real, access: string, expiresIn: ExpiresIn,
                                 second: TokenResponse)
    requires !cache.Reusable(t1) && access != "" && !expiresIn.NotAnInteger?
    requires t2 < t1 + Lifetime(expiresIn) as real - SafetyMargin
    ensures var s1 := TokenStep(cache, t1, Granted(access, expiresIn));
            var s2 := TokenStep(s1.cache, t2, second);
            && s1.refreshed && !s2.refreshed
            && s1.result == Ok(access) && s2.result == Ok(access) && s2.cache == s1.cache
  {
  }

  /** An empty token is never reused: a client holding one, or granted one,
      refreshes on its next call whatever the time. */
  lemma EmptyTokenNeverReused(cache: TokenCache, t1: real, t2: real, expiresIn: ExpiresIn, response: TokenResponse)
    ensures cache.token.None? || cache.token == Some("") ==> TokenStep(cache, t1, response).refreshed
    ensures !cache.Reusable(t1) ==>
              TokenStep(TokenStep(cache, t1, Granted("", expiresIn)).cache, t2, response).refreshed
  {
  }

  // ----- Orders endpoint -----

  /** One line of the order's product list. */
  datatype Product = Product(name: string, unitPrice: string, quantity: string)

  /** The JSON body of the order request. */
  datatype OrderPayload = OrderPayload(
    notifyUrl: string,
    continueUrl: string,
    customerIp: string,
    merchantPosId: string,
    description: string,
    currencyCode: string,
    totalAmount: string,
    products: seq<Product>)

  /** The order request: JSON payload with a Bearer authorization header. */
  datatype OrderRequest = OrderRequest(
    url: string, authorization: string, contentType: string, payload: OrderPayload, timeout: nat)

  /** The `status` member of the gateway's answer: missing, an object with or
      without `statusCode`, or some other JSON value (null, a string, ...). */
  datatype StatusField = StatusAbsent | StatusObject(statusCode: Option<string>) | StatusNotObject

  /** The members of the gateway's JSON answer that the application reads. */
  datatype OrderBody = OrderBody(status: StatusField, orderId: Option<string>, redirectUri: Option<string>)

  /** The orders endpoint: the parsed 2xx body, or the message of the exception
      raised by the request, by `raise_for_status` or by decoding the body. */
  type Gateway = OrderRequest -> Result<OrderBody, string>

  /** The `Authorization` header of RFC 6750 section 2.1. */
  function BearerAuthorization(token: string): string {
    "Bearer " + token
  }

  /** The rest of `create_order` once the token step is done: a token error
      propagates, otherwise the request goes to the gateway and its answer is
      returned as it is. */
  function OrderCall(token: Result<string, string>, payload: OrderPayload, gateway: Gateway): (r: Result<OrderBody, string>)
    ensures token.Err? ==> r == Err(token.error)
    ensures token.Ok? ==>
              r == gateway(OrderRequest(OrdersUrl, "Bearer " + token.value, "application/json", payload, OrderTimeout))
  {
    match token
    case Err(message) => Err(message)
    case Ok(t) => gateway(OrderRequest(OrdersUrl, BearerAuthorization(t), "application/json", payload, OrderTimeout))
  }

  /** `PayUClient`: credentials fixed at construction and the token cache. */
  class Client {
    const posId: string
    const clientSecret: string
    const appBaseUrl: string
    var token: Option<string>
    var tokenExpiry: real

    /** The base URL never ends in '/'. */
    ghost predicate Valid() {
      appBaseUrl == [] || appBaseUrl[|appBaseUrl| - 1] != '/'
    }

    /** The two cache fields as a value. */
    function Cache(): TokenCache
      reads this
    {
      TokenCache(token, tokenExpiry)
    }

    constructor (posId: string, clientSecret: string, appBaseUrl: string)
      ensures Valid()
      ensures this.posId == posId && this.clientSecret == clientSecret
      ensures this.appBaseUrl == StripTrailingSlashes(appBaseUrl)
      ensures Cache() == InitialCache
    {
      this.posId := posId;
      this.clientSecret := clientSecret;
      this.appBaseUrl := StripTrailingSlashes(appBaseUrl);
      token := None;
      tokenExpiry := 0.0;
    }

    /** The token request this client sends. */
    function AuthorizationRequest(): TokenRequest {
      TokenRequest(OAuthUrl, BasicUserPass(posId, clientSecret),
                   "application/x-www-form-urlencoded", "client_credentials", AuthTimeout)
    }

    /** `_get_access_token`: returns the cached token while it is reusable, and
        otherwise asks `authServer` and updates the cache as TokenStep says. */
    method GetAccessToken(now: real, authServer: TokenRequest -> TokenResponse) returns (result: Result<string, string>)
      modifies this
      ensures var step := TokenStep(old(Cache()), now, authServer(AuthorizationRequest()));
              Cache() == step.cache && result == step.result
    {
      if token.Some? && token.value != "" && now < tokenExpiry - SafetyMargin {
        return Ok(token.value);
      }
      var response := authServer(AuthorizationRequest());
      match response
      case Failed(message) =>
        return Err(message);
      case NoAccessToken =>
        return Err(MissingAccessTokenMessage);
      case Granted(access, expiresIn) =>
        token := Some(access);
        if expiresIn.NotAnInteger? {
          return Err(expiresIn.message);
        }
        var lifetime := if expiresIn.Absent? then DefaultExpiresIn else expiresIn.seconds;
        tokenExpiry := now + lifetime as real;
        return Ok(access);
    }

    /** The order payload: URLs under the base URL, the amount in grosze as the
        canonical decimal string that reads back as the amount, and one product line
        carrying the whole amount with quantity "1". */
    function Payload(totalAmountGrosze: int, description: string, customerIp: string,
                     productName: string, currency: string): (p: OrderPayload)
      ensures p.notifyUrl == appBaseUrl + "/payu/notify" && p.continueUrl == appBaseUrl + "/return"
      ensures p.merchantPosId == posId && p.description == description
      ensures p.customerIp == customerIp && p.currencyCode == currency
      ensures IsCanonicalInt(p.totalAmount) && ParseInt(p.totalAmount) == Some(totalAmountGrosze)
      ensures |p.products| == 1 && p.products[0].name == productName
      ensures p.products[0].unitPrice == p.totalAmount && p.products[0].quantity == "1"
    {
      var amount := IntToString(totalAmountGrosze);
      OrderPayload(
        appBaseUrl + "/payu/notify",
        appBaseUrl + "/return",
        customerIp,
        posId,
        description,
        currency,
        amount,
        [Product(productName, amount, "1")])
    }

    /** `create_order`: obtains a token, then sends the payload to `gateway`
        and returns its answer; a failure of either step is returned as the
        exception's message. */
    method CreateOrder(totalAmountGrosze: int, description: string, customerIp: string, productName: string,
                       currency: string, now: real, authServer: TokenRequest -> TokenResponse, gateway: Gateway)
      returns (reply: Result<OrderBody, string>)
      modifies this
      ensures var step := TokenStep(old(Cache()), now, authServer(AuthorizationRequest()));
              && Cache() == step.cache
              && reply == OrderCall(step.result, Payload(totalAmountGrosze, description, customerIp, productName, currency), gateway)
    {
      var token := GetAccessToken(now, authServer);
      if token.Err? {
        return Err(token.error);
      }
      var payload := Payload(totalAmountGrosze, description, customerIp, productName, currency);
      reply := gateway(OrderRequest(OrdersUrl, BearerAuthorization(token.value), "application/json", payload, OrderTimeout));
    }
  }
}
