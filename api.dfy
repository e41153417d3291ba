/**
 * The shared HTTP client's two interceptors (services/api.ts): the request
 * step attaches the stored session token as a bearer credential, and the
 * response-error step ends the session on HTTP 401. Both interceptors settle
 * as a `Result`: `Failure` is a rejected promise.
 */
module Api {
  import opened Wrappers
  import opened AsyncStorage

  const AuthorizationHeader: string := "Authorization"
  const BearerPrefix: string := "Bearer "
  const StatusUnauthorized: int := 401

  /** An HTTP response as the client sees it. */
  datatype Response = Response(status: int, body: string)

  /** A failed request; `response` is absent when the server never answered. */
  datatype HttpError = HttpError(message: string, response: Option<Response>)

  /** Why a request settled as rejected: the HTTP failure itself, or a storage call inside an interceptor that rejected. */
  datatype ClientError = Http(error: HttpError) | StorageFailed

  /** The outgoing request's configuration, whose header map the request step updates in place. */
  class RequestConfig {
    var url: string
    var headers: map<string, string>

    constructor (url: string, headers: map<string, string>)
      ensures this.url == url && this.headers == headers
    {
      this.url := url;
      this.headers := headers;
    }
  }

  /** The test `if (token)`: a missing token and the empty string are both falsy. */
  predicate IsTruthy(token: Option<string>)
  {
    token.Some? && token.value != ""
  }

  /** The credential the request step sends for a token. */
  function BearerValue(token: string): (v: string)
    ensures |v| == |BearerPrefix| + |token|
    ensures v[..|BearerPrefix|] == BearerPrefix && v[|BearerPrefix|..] == token
  {
    BearerPrefix + token
  }

  /** The header map after the request step, given what storage returned for the token key. */
  function WithAuthorization(headers: map<string, string>, token: Option<string>): (h: map<string, string>)
    ensures IsTruthy(token) ==> AuthorizationHeader in h && h[AuthorizationHeader] == BearerValue(token.value)
    ensures !IsTruthy(token) ==> h == headers
    ensures h.Keys == headers.Keys + (if IsTruthy(token) then {AuthorizationHeader} else {})
    ensures forall k :: k in headers && k != AuthorizationHeader ==> h[k] == headers[k]
  {
    if IsTruthy(token) then headers[AuthorizationHeader := BearerValue(token.value)] else headers
  }

  /** `error.response?.status === 401`. */
  predicate IsUnauthorized(e: HttpError)
  {
    e.response.Some? && e.response.value.status == StatusUnauthorized
  }

  /** The store after the response-error step. */
  function ItemsAfterError(items: map<string, string>, e: HttpError): (r: map<string, string>)
    ensures IsUnauthorized(e) ==> AuthTokenKey !in r
    ensures !IsUnauthorized(e) ==> r == items
    ensures r.Keys == items.Keys - (if IsUnauthorized(e) then {AuthTokenKey} else {})
    ensures forall k :: k in r ==> r[k] == items[k]
  {
    if IsUnauthorized(e) then items - {AuthTokenKey} else items
  }

  /** Request interceptor, fulfilled path: read the token, attach it, hand the same config on. */
  method OnRequest(store: Store, config: RequestConfig) returns (r: RequestConfig)
    modifies config
    ensures r == config
    ensures config.headers == WithAuthorization(old(config.headers), StoredToken(store.items))
    ensures config.url == old(config.url)
    ensures unchanged(store)
  {
    var token := store.GetItem(AuthTokenKey);
    if IsTruthy(token) {
      config.headers := config.headers[AuthorizationHeader := BearerValue(token.value)];
    }
    r := config;
  }

  /** Request interceptor, rejected path: the error is passed on as a rejection. */
  method OnRequestError(e: HttpError) returns (r: Result<RequestConfig, HttpError>)
    ensures r == Failure(e)
  {
    r := Failure(e);
  }

  /** Response interceptor, fulfilled path: the response is handed on as it arrived. */
  function OnResponse(response: Response): (r: Response)
    ensures r == response
  {
    response
  }

  /**
   * Response interceptor, rejected path: a 401 clears the stored token; every
   * error is re-rejected. If the removal itself rejects (`removeOk` false),
   * the handler rejects with that storage failure and the token stays.
   */
  method OnResponseError(store: Store, e: HttpError, removeOk: bool) returns (r: Result<Response, ClientError>)
    modifies store
    ensures r.Failure?
    ensures IsUnauthorized(e) && !removeOk ==> r == Failure(StorageFailed) && store.items == old(store.items)
    ensures !(IsUnauthorized(e) && !removeOk) ==>
      r == Failure(Http(e)) && store.items == ItemsAfterError(old(store.items), e)
  {
    if e.response.Some? && e.response.value.status == StatusUnauthorized {
      if !removeOk {
        return Failure(StorageFailed);
      }
      store.RemoveItem(AuthTokenKey);
    }
    r := Failure(Http(e));
  }

  /** After a 401 no token is stored, so the request step adds no credential of its own. */
  lemma UnauthorizedEndsSession(items: map<string, string>, e: HttpError, headers: map<string, string>)
    requires IsUnauthorized(e)
    ensures StoredToken(ItemsAfterError(items, e)) == None
    ensures WithAuthorization(headers, StoredToken(ItemsAfterError(items, e))) == headers
    ensures AuthorizationHeader in WithAuthorization(headers, StoredToken(ItemsAfterError(items, e)))
        <==> AuthorizationHeader in headers
  {
  }

  /** Any other failure leaves the session, and so the next request's credential, as it was. */
  lemma OtherErrorsKeepSession(items: map<string, string>, e: HttpError, headers: map<string, string>)
    requires !IsUnauthorized(e)
    ensures StoredToken(ItemsAfterError(items, e)) == StoredToken(items)
    ensures WithAuthorization(headers, StoredToken(ItemsAfterError(items, e))) == WithAuthorization(headers, StoredToken(items))
  {
  }
}
