/** The shared HTTP client (lib/api.ts): every request starts from the
    client's defaults and passes a request interceptor that attaches the
    stored access token as a bearer credential. */
module Api {
  import opened Js
  import opened BrowserStorage

  const BaseUrl: string := "/api"
  const DefaultHeaders: map<string, string> := map["Content-Type" := "application/json"]

  /** The parts of a request configuration the interceptor sees. */
  datatype RequestConfig = RequestConfig(baseUrl: string, url: string, headers: map<string, string>)

  /** A request as the client creates it, before the interceptor runs. */
  function NewRequest(url: string): (c: RequestConfig)
    ensures c.baseUrl == "/api" && c.url == url
    ensures c.headers.Keys == {"Content-Type"} && c.headers["Content-Type"] == "application/json"
  {
    RequestConfig(BaseUrl, url, DefaultHeaders)
  }

  /** What reaches the interceptor: the configuration, or the error of an
      earlier stage. */
  datatype Settled = Fulfilled(config: RequestConfig) | Rejected(reason: string)

  /** The token the interceptor reads: the stored access token in a
      browser, nothing during server rendering (no `window`). */
  function StoredToken(items: map<string, string>, inBrowser: bool): (t: Option<string>)
    ensures inBrowser ==> t == Get(items, AccessTokenKey)
    ensures !inBrowser ==> t == None
  {
    if inBrowser then Get(items, AccessTokenKey) else None
  }

  /** The headers after the interceptor: with a non-empty token the
      `Authorization` header is exactly `Bearer <token>`; otherwise nothing
      is added. Every other header is kept. */
  function Authorize(headers: map<string, string>, token: Option<string>): (r: map<string, string>)
    ensures TruthyString(token) ==> "Authorization" in r && r["Authorization"] == "Bearer " + token.value
    ensures TruthyString(token) ==> r.Keys == headers.Keys + {"Authorization"}
    ensures !TruthyString(token) ==> r == headers
    ensures forall k :: k in headers && k != "Authorization" ==> k in r && r[k] == headers[k]
  {
    if TruthyString(token) then headers["Authorization" := "Bearer " + token.value] else headers
  }

  /** The request interceptor: its success handler sets the header on the
      configuration it was given and returns it; its error handler passes
      the rejection on unchanged. */
  method InterceptRequest(storage: LocalStorage, inBrowser: bool, incoming: Settled) returns (outgoing: Settled)
    ensures incoming.Rejected? ==> outgoing == incoming
    ensures incoming.Fulfilled? ==> outgoing == Fulfilled(incoming.config.(headers := Authorize(incoming.config.headers, StoredToken(storage.items, inBrowser))))
  {
    match incoming
    case Rejected(_) =>
      outgoing := incoming;
    case Fulfilled(config) =>
      var token := if inBrowser then storage.GetItem(AccessTokenKey) else None;
      if TruthyString(token) {
        config := config.(headers := config.headers["Authorization" := "Bearer " + token.value]);
      }
      outgoing := Fulfilled(config);
  }

  /** After a successful sign-in every browser request carries the new
      access token, and the JSON content type still. */
  lemma SignedInRequestCarriesBearer(items: map<string, string>, accessToken: Option<string>, refreshToken: Option<string>, url: string)
    requires TruthyString(accessToken) && TruthyString(refreshToken)
    ensures var h := Authorize(NewRequest(url).headers, StoredToken(WithTokens(items, accessToken, refreshToken), true));
      h == map["Content-Type" := "application/json", "Authorization" := "Bearer " + accessToken.value]
  {
  }

  /** After logging out, and during server rendering, requests carry no
      credential: the headers pass through untouched. */
  lemma SignedOutRequestCarriesNothing(items: map<string, string>, headers: map<string, string>)
    ensures Authorize(headers, StoredToken(WithoutTokens(items), true)) == headers
    ensures Authorize(headers, StoredToken(items, false)) == headers
  {
  }

  /** A browser request carries a credential exactly when the user is
      signed in, for a request that had none before. */
  lemma BearerIffSignedIn(items: map<string, string>, url: string)
    ensures "Authorization" in Authorize(NewRequest(url).headers, StoredToken(items, true)) <==> SignedIn(items)
  {
  }
}
