/**
 * The shared HTTP client of psiagram/api/client.ts, reduced to its two
 * interceptors. Before a request leaves, the stored session token, when
 * there is a non-empty one, is attached as `Authorization: Bearer <token>`;
 * a failing storage read is swallowed and the request goes out as it was.
 * Responses and errors pass through unchanged: an unauthorized (401) error is
 * only logged, and there is no refresh and no retry.
 */
module ApiClient {
  import opened Wrappers

  /** The storage key the session token lives under, on every platform. */
  const SessionKey: string := "session"
  const AuthorizationHeader: string := "Authorization"
  const BearerPrefix: string := "Bearer "
  const UnauthorizedStatus: int := 401

  datatype Platform = Web | Native

  /** A key-value store; when `failing`, every read throws. */
  datatype KeyValue = KeyValue(entries: map<string, string>, failing: bool)

  /**
   * The storage the interceptor can reach: the browser's `localStorage`
   * (absent on some web runtimes) and the native secure store.
   */
  datatype Storage = Storage(platform: Platform, localStorage: Option<KeyValue>, secureStore: KeyValue)

  /** The outcome of one read: the stored value (null when missing), or a thrown exception. */
  datatype Read = Value(item: Option<string>) | Threw

  function GetItem(store: KeyValue, key: string): (r: Read)
    ensures r.Threw? <==> store.failing
    ensures r.Value? ==> (r.item.Some? <==> key in store.entries)
    ensures r.Value? && r.item.Some? ==> r.item.value == store.entries[key]
  {
    if store.failing then Threw
    else Value(if key in store.entries then Some(store.entries[key]) else None)
  }

  /** The store the interceptor reads on the platform, if there is one. */
  function ActiveStore(s: Storage): Option<KeyValue> {
    match s.platform
    case Web => s.localStorage
    case Native => Some(s.secureStore)
  }

  /**
   * The token the interceptor ends up with: the "session" entry of the
   * platform's store; null when there is no store, no entry, or the read
   * throws.
   */
  function SessionToken(s: Storage): (token: Option<string>)
    ensures token.Some? <==>
      ActiveStore(s).Some? && !ActiveStore(s).value.failing && SessionKey in ActiveStore(s).value.entries
    ensures token.Some? ==> token.value == ActiveStore(s).value.entries[SessionKey]
  {
    var store := ActiveStore(s);
    if store.None? then None
    else
      match GetItem(store.value, SessionKey)
      case Value(item) => item
      case Threw => None
  }

  /** Entries under keys other than "session" never influence the token. */
  lemma SessionTokenReadsOnlySessionKey(s1: Storage, s2: Storage)
    requires s1.platform == s2.platform
    requires ActiveStore(s1).Some? <==> ActiveStore(s2).Some?
    requires ActiveStore(s1).Some? ==>
      var a, b := ActiveStore(s1).value, ActiveStore(s2).value;
      a.failing == b.failing &&
      (SessionKey in a.entries <==> SessionKey in b.entries) &&
      (SessionKey in a.entries ==> a.entries[SessionKey] == b.entries[SessionKey])
    ensures SessionToken(s1) == SessionToken(s2)
  {
  }

  function BearerValue(token: string): string { BearerPrefix + token }

  /** How a receiver reads the header back: the token after the "Bearer " prefix. */
  function ParseBearer(header: string): Option<string> {
    if |header| >= |BearerPrefix| && header[..|BearerPrefix|] == BearerPrefix
    then Some(header[|BearerPrefix|..])
    else None
  }

  /** The header value carries the token unchanged. */
  lemma BearerRoundTrip(token: string)
    ensures ParseBearer(BearerValue(token)) == Some(token)
  {
    var h := BearerValue(token);
    assert h[..|BearerPrefix|] == BearerPrefix;
    assert h[|BearerPrefix|..] == token;
  }

  /** An outgoing request's configuration, which the interceptor updates in place. */
  class RequestConfig {
    var url: string
    var verb: string  // the HTTP method
    var headers: map<string, string>

    constructor (url: string, verb: string, headers: map<string, string>)
      ensures this.url == url && this.verb == verb && this.headers == headers
    {
      this.url := url;
      this.verb := verb;
      this.headers := headers;
    }
  }

  /**
   * The request interceptor: reads "session" from the platform's store and,
   * when the token is non-empty, sets the Authorization header on `config`
   * itself; a throwing read is caught and logged. The same object is returned.
   */
  method AttachToken(config: RequestConfig, storage: Storage) returns (result: RequestConfig)
    modifies config
    ensures result == config
    ensures config.url == old(config.url) && config.verb == old(config.verb)
    ensures Truthy(SessionToken(storage)) ==>
      config.headers == old(config.headers)[AuthorizationHeader := BearerValue(SessionToken(storage).value)]
    ensures !Truthy(SessionToken(storage)) ==> config.headers == old(config.headers)
  {
    var token: Option<string> := None;
    var read: Read := Value(None);
    match storage.platform {
      case Web =>
        if storage.localStorage.Some? {
          read := GetItem(storage.localStorage.value, SessionKey);
        }
      case Native =>
        read := GetItem(storage.secureStore, SessionKey);
    }
    // A read that throws leaves the rest of the try block unexecuted.
    if read.Value? {
      token := read.item;
      if token.Some? && token.value != "" {
        config.headers := config.headers[AuthorizationHeader := BearerValue(token.value)];
      }
    }
    return config;
  }

  datatype Response = Response(status: int, data: string)

  /** A failed request: the server's response when there was one. */
  datatype HttpError = HttpError(response: Option<Response>, message: string)

  /** How a promise settles. */
  datatype Settled<T> = Fulfilled(value: T) | Rejected(reason: HttpError)

  /** The request interceptor's error handler: reject with the same error. */
  function OnRequestError<T>(error: HttpError): (s: Settled<T>)
    ensures s == Rejected(error)
  {
    Rejected(error)
  }

  /** The response interceptor's success handler: the response itself. */
  function OnResponse(response: Response): (s: Settled<Response>)
    ensures s == Fulfilled(response)
  {
    Fulfilled(response)
  }

  /** What the error handler does: the settlement it returns and whether it logged a 401. */
  datatype Handled = Handled(outcome: Settled<Response>, loggedUnauthorized: bool)

  /**
   * The response interceptor's error handler: every error, a 401 included,
   * is rejected unchanged; a 401 is also logged.
   */
  function OnResponseError(error: HttpError): (h: Handled)
    ensures h.outcome == Rejected(error)
    ensures h.loggedUnauthorized <==> error.response.Some? && error.response.value.status == UnauthorizedStatus
  {
    var unauthorized := error.response.Some? && error.response.value.status == UnauthorizedStatus;
    Handled(Rejected(error), unauthorized)
  }

  /** What the caller of the client sees once the response interceptor has run. */
  function ThroughResponseInterceptor(transport: Settled<Response>): Settled<Response> {
    match transport
    case Fulfilled(r) => OnResponse(r)
    case Rejected(e) => OnResponseError(e).outcome
  }

  /**
   * The caller sees exactly what the transport produced: nothing is
   * recovered, refreshed or replayed, whatever the status.
   */
  lemma ResponseInterceptorIsTransparent(transport: Settled<Response>)
    ensures ThroughResponseInterceptor(transport) == transport
  {
  }
}
