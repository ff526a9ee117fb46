/**
 * The request dispatcher of the Postmark client (`doRequest`), the verb
 * helpers that call it, and the error values it returns.
 *
 * The network and `encoding/json` are parameters: a `Network` says whether
 * `http.NewRequestWithContext` accepts a method and URL and what the server
 * answers to a request; a `Json` record says what marshalling a payload
 * gives and what decoding a body into a destination gives.
 */
module Postmark {
  import opened Wrappers
  import opened GoStrings

  type Bytes = seq<byte>

  const PostmarkURL: GoString := Lit("https://api.postmarkapp.com")

  /** The two credential scopes a request can name. */
  const AccountTokenType: GoString := Lit("account")
  const ServerTokenType: GoString := Lit("server")

  const MethodGet: GoString := Lit("GET")
  const MethodPost: GoString := Lit("POST")
  const MethodPut: GoString := Lit("PUT")
  const MethodPatch: GoString := Lit("PATCH")
  const MethodDelete: GoString := Lit("DELETE")

  const AcceptHeader: GoString := Lit("Accept")
  const ContentTypeHeader: GoString := Lit("Content-Type")
  const JsonMediaType: GoString := Lit("application/json")
  const AccountTokenHeader: GoString := Lit("X-Postmark-Account-Token")
  const ServerTokenHeader: GoString := Lit("X-Postmark-Server-Token")

  const StatusBadRequest: int := 400

  /** The error body Postmark sends: a numeric code and a message. */
  datatype APIError = APIError(errorCode: int, message: GoString) {
    /** `APIError.Error`. */
    function Error(): GoString {
      message
    }
  }

  const ZeroAPIError: APIError := APIError(0, [])

  /** Every error value an operation of the client can return. */
  datatype Error =
    | RequestConstruction(cause: GoString)   // http.NewRequestWithContext refused the method or URL
    | PayloadEncoding(cause: GoString)       // json.Marshal of the payload failed
    | Transport(cause: GoString)             // the HTTP client returned an error (including a cancelled context)
    | BodyRead(cause: GoString)              // reading the response body failed
    | API(apiError: APIError)                // a status of 400 or more whose body is an APIError
    | StatusFailure(status: int, body: Bytes) // a status of 400 or more whose body is not
    | Decoding(cause: GoString)              // the body did not decode into the destination
    | HeaderInjection                        // ErrHeaderInjection (a template alias holds CR or LF)
    | InEmail(index: int, inner: Error)      // "email <i>: " wrapping another error
  {
    /** The text `Error()` returns. */
    function Message(): GoString {
      match this
      case RequestConstruction(c) => c
      case PayloadEncoding(c) => c
      case Transport(c) => c
      case BodyRead(c) => c
      case API(e) => e.Error()
      case StatusFailure(status, body) => Lit("request failed with status ") + Decimal(status) + Lit(": ") + body
      case Decoding(c) => c
      case HeaderInjection => Lit("header injection detected: illegal characters in template alias")
      case InEmail(i, inner) => Lit("email ") + Decimal(i) + Lit(": ") + inner.Message()
    }

    /** `errors.Is`: this error is target, or wraps it. */
    predicate Is(target: Error) {
      this == target || (InEmail? && inner.Is(target))
    }
  }

  /** The error at the bottom of a chain of `email <i>: ` wrappers. */
  function Root(e: Error): Error {
    if e.InEmail? then Root(e.inner) else e
  }

  /**
   * `errors.Is` against an error that wraps nothing holds exactly when that
   * error is at the bottom of the chain: `%w` keeps it recognisable through
   * any number of wrappers, and no other error matches it.
   */
  lemma {:induction false} IsUnwrapped(e: Error, target: Error)
    requires !target.InEmail?
    ensures e.Is(target) <==> Root(e) == target
  {
    if e.InEmail? {
      IsUnwrapped(e.inner, target);
    }
  }

  /**
   * The text of an API failure is the server's `Message` verbatim: the
   * error code does not show in it, so two API errors read alike exactly
   * when their messages agree.
   */
  lemma APIErrorMessage(e: APIError, other: APIError)
    ensures API(e).Message() == e.message
    ensures API(e).Message() == API(other).Message() <==> e.message == other.message
  {
  }

  datatype Header = Header(name: GoString, value: GoString)

  /** A request as it leaves the client. */
  datatype Outgoing = Outgoing(httpMethod: GoString, url: GoString, body: Option<Bytes>, header: seq<Header>)

  /** What came back: a transport error, or a status and the result of reading the body. */
  datatype Exchange =
    | TransportFailed(cause: GoString)
    | Responded(status: int, body: Result<Bytes, GoString>)

  /** The outside world a request meets. */
  datatype Network = Network(
    newRequestError: (GoString, GoString) -> Option<GoString>,
    respond: Outgoing -> Exchange)

  /** What `json.Unmarshal` leaves in a destination: a full value, or a partial one and an error. */
  datatype Unmarshaled<T> = Decoded(value: T) | Malformed(partial: T, cause: GoString)

  /**
   * The JSON codec for one call: marshalling payloads of type P, decoding a
   * body into a destination holding a T, and decoding a body as an APIError
   * (None when it is not one).
   */
  datatype Json<-P, !T> = Json(
    marshal: P -> Result<Bytes, GoString>,
    unmarshal: (Bytes, T) -> Unmarshaled<T>,
    apiError: Bytes -> Option<APIError>)

  /** The `parameters` record: method, path, optional payload and token type of one call. */
  datatype RequestSpec<P> = RequestSpec(httpMethod: GoString, path: GoString, payload: Option<P>, tokenType: GoString)

  /** The client fields a request reads. */
  datatype Settings = Settings(baseURL: GoString, serverToken: GoString, accountToken: GoString)

  /** A listing response: the total the server reports and one page of items. */
  datatype Page<I> = Page(totalCount: int, items: seq<I>)

  /** The effect of one call: its error, the request sent (if any), and what was written to the destination (if anything). */
  datatype Outcome<T> = Outcome(err: Option<Error>, sent: Option<Outgoing>, written: Option<T>)

  function URLFor(s: Settings, path: GoString): GoString {
    s.baseURL + [Slash] + path
  }

  function TokenHeader(s: Settings, tokenType: GoString): Header {
    if tokenType == AccountTokenType then Header(AccountTokenHeader, s.accountToken)
    else Header(ServerTokenHeader, s.serverToken)
  }

  function Headers(s: Settings, tokenType: GoString): seq<Header> {
    [Header(AcceptHeader, JsonMediaType), Header(ContentTypeHeader, JsonMediaType), TokenHeader(s, tokenType)]
  }

  /** The request body: none without a payload, else the marshalled payload or its error. */
  function Body<P, T>(spec: RequestSpec<P>, json: Json<P, T>): Result<Option<Bytes>, GoString> {
    match spec.payload
    case None => Success(None)
    case Some(p) =>
      match json.marshal(p)
      case Success(data) => Success(Some(data))
      case Failure(cause) => Failure(cause)
  }

  /** The error for a status of 400 or more: the decoded APIError, or the raw status text. */
  function StatusError(status: int, body: Bytes, apiError: Option<APIError>): Error {
    match apiError
    case Some(e) => API(e)
    case None => StatusFailure(status, body)
  }

  /** What `doRequest` does, as a function of the client's fields, the network and the call. */
  function Dispatch<P, T>(s: Settings, net: Network, spec: RequestSpec<P>, dst: Option<T>, json: Json<P, T>): Outcome<T> {
    var url := URLFor(s, spec.path);
    match net.newRequestError(spec.httpMethod, url)
    case Some(cause) => Outcome(Some(RequestConstruction(cause)), None, None)
    case None =>
      match Body(spec, json)
      case Failure(cause) => Outcome(Some(PayloadEncoding(cause)), None, None)
      case Success(body) =>
        var out := Outgoing(spec.httpMethod, url, body, Headers(s, spec.tokenType));
        match net.respond(out)
        case TransportFailed(cause) => Outcome(Some(Transport(cause)), Some(out), None)
        case Responded(_, Failure(cause)) => Outcome(Some(BodyRead(cause)), Some(out), None)
        case Responded(status, Success(data)) =>
          if status >= StatusBadRequest then Outcome(Some(StatusError(status, data, json.apiError(data))), Some(out), None)
          else if dst.None? then Outcome(None, Some(out), None)
          else
            match json.unmarshal(data, dst.value)
            case Decoded(v) => Outcome(None, Some(out), Some(v))
            case Malformed(partial, cause) => Outcome(Some(Decoding(cause)), Some(out), Some(partial))
  }

  /** The requests an outcome adds to the client's log. */
  function SentLog<T>(o: Outcome<T>): seq<Outgoing> {
    if o.sent.Some? then [o.sent.value] else []
  }

  /** The destination's value after the call, given its value before. */
  function Final<T>(o: Outcome<T>, init: T): T {
    if o.written.Some? then o.written.value else init
  }

  /** The answer the server gives a request, when it gets that far. */
  function Answer<P, T>(s: Settings, net: Network, spec: RequestSpec<P>, json: Json<P, T>): Option<Exchange> {
    if net.newRequestError(spec.httpMethod, URLFor(s, spec.path)).Some? || Body(spec, json).Failure? then None
    else Some(net.respond(Outgoing(spec.httpMethod, URLFor(s, spec.path), Body(spec, json).value, Headers(s, spec.tokenType))))
  }

  // ---------------------------------------------------------------------
  // What the dispatcher promises
  // ---------------------------------------------------------------------

  /**
   * The stages fail in order and the first failure ends the call: a refused
   * request, then a payload that does not marshal, and in both cases nothing
   * is sent and nothing written. Otherwise exactly one request goes out.
   */
  lemma EarlyFailuresSendNothing<P, T>(s: Settings, net: Network, spec: RequestSpec<P>, dst: Option<T>, json: Json<P, T>)
    ensures var o := Dispatch(s, net, spec, dst, json);
      && (net.newRequestError(spec.httpMethod, URLFor(s, spec.path)).Some? ==>
            o == Outcome(Some(RequestConstruction(net.newRequestError(spec.httpMethod, URLFor(s, spec.path)).value)), None, None))
      && (net.newRequestError(spec.httpMethod, URLFor(s, spec.path)).None? && spec.payload.Some? && json.marshal(spec.payload.value).Failure? ==>
            o == Outcome(Some(PayloadEncoding(json.marshal(spec.payload.value).error)), None, None))
      && (o.sent.Some? <==> Answer(s, net, spec, json).Some?)
  {
  }

  /**
   * A request that goes out is sent to base URL "/" path, verbatim, with the
   * marshalled payload as its body (none without a payload), both JSON
   * headers, and exactly one credential header: the account token when the
   * token type is "account", the server token for any other value.
   */
  lemma SentRequestShape<P, T>(s: Settings, net: Network, spec: RequestSpec<P>, dst: Option<T>, json: Json<P, T>)
    requires Dispatch(s, net, spec, dst, json).sent.Some?
    ensures var out := Dispatch(s, net, spec, dst, json).sent.value;
      && out.httpMethod == spec.httpMethod
      && out.url == s.baseURL + [Slash] + spec.path
      && (spec.payload.None? ==> out.body.None?)
      && (spec.payload.Some? ==> json.marshal(spec.payload.value) == Success(out.body.value))
      && Header(AcceptHeader, JsonMediaType) in out.header
      && Header(ContentTypeHeader, JsonMediaType) in out.header
      && CountTokenHeaders(out.header) == 1
      && (spec.tokenType == AccountTokenType <==> Header(AccountTokenHeader, s.accountToken) in out.header)
      && (spec.tokenType != AccountTokenType <==> Header(ServerTokenHeader, s.serverToken) in out.header)
  {
    var o := Dispatch(s, net, spec, dst, json);
    var h := o.sent.value.header;
    assert h == Headers(s, spec.tokenType);
    assert CountTokenHeaders(h[2..]) == 1 by {
      assert h[2..][1..] == [];
    }
    assert h[1..] == h[1..2] + h[2..];
    assert CountTokenHeaders(h[1..]) == 1;
  }

  predicate IsTokenHeader(h: Header) {
    h.name == AccountTokenHeader || h.name == ServerTokenHeader
  }

  /** The number of credential headers in a header list. */
  function CountTokenHeaders(hs: seq<Header>): nat {
    if hs == [] then 0 else (if IsTokenHeader(hs[0]) then 1 else 0) + CountTokenHeaders(hs[1..])
  }

  /**
   * A failed exchange ends the call with that failure: a transport error,
   * then a body that could not be read. Nothing is written.
   */
  lemma ExchangeFailures<P, T>(s: Settings, net: Network, spec: RequestSpec<P>, dst: Option<T>, json: Json<P, T>)
    requires Answer(s, net, spec, json).Some?
    ensures var o := Dispatch(s, net, spec, dst, json);
      match Answer(s, net, spec, json).value
      case TransportFailed(cause) => o.err == Some(Transport(cause)) && o.written.None?
      case Responded(_, Failure(cause)) => o.err == Some(BodyRead(cause)) && o.written.None?
      case Responded(_, Success(_)) => true
  {
  }

  /**
   * A status of 400 or more always fails and never writes the destination:
   * the error is the decoded APIError whenever the body is one (even with
   * code 0), and otherwise "request failed with status N: " and the whole body.
   */
  lemma ErrorStatusFails<P, T>(s: Settings, net: Network, spec: RequestSpec<P>, dst: Option<T>, json: Json<P, T>, status: int, body: Bytes)
    requires Answer(s, net, spec, json) == Some(Responded(status, Success(body)))
    requires status >= StatusBadRequest
    ensures var o := Dispatch(s, net, spec, dst, json);
      && o.err.Some? && o.written.None?
      && (json.apiError(body).Some? ==> o.err == Some(API(json.apiError(body).value)))
      && (json.apiError(body).None? ==>
            o.err.value.Message() == Lit("request failed with status ") + Decimal(status) + Lit(": ") + body)
  {
  }

  /**
   * Below 400 the call succeeds without a destination, whatever the body;
   * with one, the error is exactly the decoding error and the destination
   * holds what decoding left in it.
   */
  lemma SuccessStatusDecodes<P, T>(s: Settings, net: Network, spec: RequestSpec<P>, dst: Option<T>, json: Json<P, T>, status: int, body: Bytes)
    requires Answer(s, net, spec, json) == Some(Responded(status, Success(body)))
    requires status < StatusBadRequest
    ensures var o := Dispatch(s, net, spec, dst, json);
      && (dst.None? ==> o.err.None? && o.written.None?)
      && (dst.Some? ==>
            match json.unmarshal(body, dst.value)
            case Decoded(v) => o.err.None? && o.written == Some(v)
            case Malformed(partial, cause) => o.err == Some(Decoding(cause)) && o.written == Some(partial))
  {
  }

  /** The destination is written only on a response below 400 that reached a destination. */
  lemma WrittenOnlyOnSuccessStatus<P, T>(s: Settings, net: Network, spec: RequestSpec<P>, dst: Option<T>, json: Json<P, T>)
    requires Dispatch(s, net, spec, dst, json).written.Some?
    ensures dst.Some?
    ensures exists status, body :: status < StatusBadRequest && Answer(s, net, spec, json) == Some(Responded(status, Success(body)))
  {
    var o := Dispatch(s, net, spec, dst, json);
    var a := Answer(s, net, spec, json).value;
    assert a.Responded? && a.body.Success? && a.status < StatusBadRequest;
  }

  // ---------------------------------------------------------------------
  // Folding a decoded APIError into the returned error
  // ---------------------------------------------------------------------

  /**
   * The fold of `DeleteTemplate` and `DeleteInboundRuleTrigger`: the
   * dispatcher's own error wins; failing that, a decoded APIError with a
   * non-zero code is the error; otherwise the call succeeded.
   */
  function DispatcherFirst(err: Option<Error>, res: APIError): Option<Error> {
    if err.Some? then err else if res.errorCode != 0 then Some(API(res)) else None
  }

  /**
   * The fold of `DeleteServer`, `DeleteDomain`, `DeleteSenderSignature` and
   * `ResendSenderSignatureConfirmation`: a decoded APIError with a non-zero
   * code is the error, whatever the dispatcher said; otherwise the
   * dispatcher's error, if any, is returned.
   */
  function CodeFirst(err: Option<Error>, res: APIError): Option<Error> {
    if res.errorCode != 0 then Some(API(res)) else err
  }

  /** Both folds fail exactly when the dispatcher failed or the decoded code is non-zero. */
  lemma FoldsFailAlike(err: Option<Error>, res: APIError)
    ensures DispatcherFirst(err, res).None? <==> err.None? && res.errorCode == 0
    ensures CodeFirst(err, res).None? <==> err.None? && res.errorCode == 0
  {
  }

  /**
   * For a call decoding into a zero APIError, the two folds give different
   * errors exactly when a body below 400 failed to decode yet left a non-zero
   * code behind; on 400 and above the destination is untouched, so both
   * return the dispatcher's error.
   */
  lemma FoldsDifferOnlyOnPartialDecode<P>(s: Settings, net: Network, spec: RequestSpec<P>, json: Json<P, APIError>)
    ensures var o := Dispatch(s, net, spec, Some(ZeroAPIError), json);
      var res := Final(o, ZeroAPIError);
      (DispatcherFirst(o.err, res) != CodeFirst(o.err, res))
        <==> (o.err.Some? && o.err.value.Decoding? && res.errorCode != 0)
  {
    var o := Dispatch(s, net, spec, Some(ZeroAPIError), json);
    var res := Final(o, ZeroAPIError);
    if o.err.Some? && res.errorCode != 0 {
      assert o.written.Some?;
    }
  }

  /** With a non-zero decoded code the code-first fold reports the server's message. */
  lemma CodeFirstReportsMessage(err: Option<Error>, res: APIError)
    requires res.errorCode != 0
    ensures CodeFirst(err, res) == Some(API(res)) && CodeFirst(err, res).value.Message() == res.message
  {
  }

  // ---------------------------------------------------------------------
  // The objects doRequest works with
  // ---------------------------------------------------------------------

  /** The caller's `dst`: a variable the response is decoded into in place. */
  class Destination<T> {
    var value: T

    constructor (init: T)
      ensures value == init
    {
      value := init;
    }
  }

  /** An `*http.Request` being assembled: its body and headers are set one after the other. */
  class Request {
    const httpMethod: GoString
    const url: GoString
    var body: Option<Bytes>
    var header: seq<Header>

    constructor (httpMethod: GoString, url: GoString)
      ensures this.httpMethod == httpMethod && this.url == url
      ensures body.None? && header == []
    {
      this.httpMethod := httpMethod;
      this.url := url;
      body := None;
      header := [];
    }

    /** `Header.Add`: one more header line, after the others. */
    method AddHeader(name: GoString, value: GoString)
      modifies this
      ensures header == old(header) + [Header(name, value)]
      ensures body == old(body)
    {
      header := header + [Header(name, value)];
    }

    function Snapshot(): Outgoing
      reads this
    {
      Outgoing(httpMethod, url, body, header)
    }
  }

  /** The `*http.Client`: it hands each request to the network and keeps a log of what it sent. */
  class HttpClient {
    const net: Network
    var sent: seq<Outgoing>

    constructor (net: Network)
      ensures this.net == net && sent == []
    {
      this.net := net;
      sent := [];
    }

    /** `HTTPClient.Do`. */
    method Do(req: Request) returns (ex: Exchange)
      modifies this
      ensures sent == old(sent) + [req.Snapshot()]
      ensures ex == net.respond(req.Snapshot())
    {
      sent := sent + [req.Snapshot()];
      ex := net.respond(req.Snapshot());
    }
  }

  /** The Postmark `Client`. */
  class Client {
    var http: HttpClient
    var serverToken: GoString
    var accountToken: GoString
    var baseURL: GoString

    /** `NewClient`: the given tokens and the default base URL. */
    constructor NewClient(serverToken: GoString, accountToken: GoString, http: HttpClient)
      ensures this.http == http
      ensures this.serverToken == serverToken && this.accountToken == accountToken
      ensures baseURL == PostmarkURL
    {
      this.http := http;
      this.serverToken := serverToken;
      this.accountToken := accountToken;
      baseURL := PostmarkURL;
    }

    function Config(): Settings
      reads this
    {
      Settings(baseURL, serverToken, accountToken)
    }

    /** A call to doRequest with destination dst ended in err, as Dispatch says. */
    twostate predicate Performed<P, T>(new spec: RequestSpec<P>, dst: Destination?<T>, new json: Json<P, T>, new err: Option<Error>)
      reads this, http, dst
    {
      var o := Dispatch(old(Config()), http.net, spec, if dst == null then None else Some(old(dst.value)), json);
      && err == o.err
      && http.sent == old(http.sent) + SentLog(o)
      && (dst != null ==> dst.value == Final(o, old(dst.value)))
    }

    /** An operation that decoded into a fresh destination holding zero returned res and err, as Dispatch says. */
    twostate predicate Answered<P, T>(new spec: RequestSpec<P>, new zero: T, new json: Json<P, T>, new res: T, new err: Option<Error>)
      reads this, http
    {
      var o := Dispatch(old(Config()), http.net, spec, Some(zero), json);
      && err == o.err
      && http.sent == old(http.sent) + SentLog(o)
      && res == Final(o, zero)
    }

    /** A call decoding into a zero APIError returned err, folding the dispatcher's error first. */
    twostate predicate ResolvedDispatcherFirst<P>(new spec: RequestSpec<P>, new json: Json<P, APIError>, new err: Option<Error>)
      reads this, http
    {
      var o := Dispatch(old(Config()), http.net, spec, Some(ZeroAPIError), json);
      && err == DispatcherFirst(o.err, Final(o, ZeroAPIError))
      && http.sent == old(http.sent) + SentLog(o)
    }

    /** A call decoding into a zero APIError returned err, folding the decoded code first. */
    twostate predicate ResolvedCodeFirst<P>(new spec: RequestSpec<P>, new json: Json<P, APIError>, new err: Option<Error>)
      reads this, http
    {
      var o := Dispatch(old(Config()), http.net, spec, Some(ZeroAPIError), json);
      && err == CodeFirst(o.err, Final(o, ZeroAPIError))
      && http.sent == old(http.sent) + SentLog(o)
    }

    /** `doRequest`. */
    method DoRequest<P, T>(spec: RequestSpec<P>, dst: Destination?<T>, json: Json<P, T>) returns (err: Option<Error>)
      modifies http, dst
      ensures Performed(spec, dst, json, err)
    {
      ghost var o := Dispatch(Config(), http.net, spec, if dst == null then None else Some(dst.value), json);
      var url := baseURL + [Slash] + spec.path;
      var refused := http.net.newRequestError(spec.httpMethod, url);
      if refused.Some? {
        return Some(RequestConstruction(refused.value));
      }
      var req := new Request(spec.httpMethod, url);
      if spec.payload.Some? {
        var data := json.marshal(spec.payload.value);
        if data.Failure? {
          return Some(PayloadEncoding(data.error));
        }
        req.body := Some(data.value);
      }
      req.AddHeader(AcceptHeader, JsonMediaType);
      req.AddHeader(ContentTypeHeader, JsonMediaType);
      if spec.tokenType == AccountTokenType {
        req.AddHeader(AccountTokenHeader, accountToken);
      } else {
        req.AddHeader(ServerTokenHeader, serverToken);
      }
      assert req.Snapshot() == Outgoing(spec.httpMethod, url, Body(spec, json).value, Headers(Config(), spec.tokenType));
      assert o.sent == Some(req.Snapshot());
      var ex := http.Do(req);
      assert SentLog(o) == [req.Snapshot()];
      assert ex == http.net.respond(o.sent.value);
      match ex
      case TransportFailed(cause) =>
        assert o == Outcome(Some(Transport(cause)), Some(req.Snapshot()), None);
        return Some(Transport(cause));
      case Responded(status, Failure(cause)) =>
        assert o == Outcome(Some(BodyRead(cause)), Some(req.Snapshot()), None);
        return Some(BodyRead(cause));
      case Responded(status, Success(body)) =>
        if status >= StatusBadRequest {
          assert o == Outcome(Some(StatusError(status, body, json.apiError(body))), Some(req.Snapshot()), None);
          return Some(StatusError(status, body, json.apiError(body)));
        }
        if dst == null {
          assert o == Outcome(None, Some(req.Snapshot()), None);
          return None;
        }
        match json.unmarshal(body, dst.value)
        case Decoded(v) =>
          assert o == Outcome(None, Some(req.Snapshot()), Some(v));
          dst.value := v;
          err := None;
        case Malformed(partial, cause) =>
          assert o == Outcome(Some(Decoding(cause)), Some(req.Snapshot()), Some(partial));
          dst.value := partial;
          err := Some(Decoding(cause));
    }

    method Get<T>(path: GoString, dst: Destination?<T>, json: Json<(), T>) returns (err: Option<Error>)
      modifies http, dst
      ensures Performed(RequestSpec(MethodGet, path, None, ServerTokenType), dst, json, err)
    {
      err := DoRequest(RequestSpec(MethodGet, path, None, ServerTokenType), dst, json);
    }

    method GetWithAccountToken<T>(path: GoString, dst: Destination?<T>, json: Json<(), T>) returns (err: Option<Error>)
      modifies http, dst
      ensures Performed(RequestSpec(MethodGet, path, None, AccountTokenType), dst, json, err)
    {
      err := DoRequest(RequestSpec(MethodGet, path, None, AccountTokenType), dst, json);
    }

    method Post<P, T>(path: GoString, payload: Option<P>, dst: Destination?<T>, json: Json<P, T>) returns (err: Option<Error>)
      modifies http, dst
      ensures Performed(RequestSpec(MethodPost, path, payload, ServerTokenType), dst, json, err)
    {
      err := DoRequest(RequestSpec(MethodPost, path, payload, ServerTokenType), dst, json);
    }

    method PostWithAccountToken<P, T>(path: GoString, payload: Option<P>, dst: Destination?<T>, json: Json<P, T>) returns (err: Option<Error>)
      modifies http, dst
      ensures Performed(RequestSpec(MethodPost, path, payload, AccountTokenType), dst, json, err)
    {
      err := DoRequest(RequestSpec(MethodPost, path, payload, AccountTokenType), dst, json);
    }

    method Patch<P, T>(path: GoString, payload: Option<P>, dst: Destination?<T>, json: Json<P, T>) returns (err: Option<Error>)
      modifies http, dst
      ensures Performed(RequestSpec(MethodPatch, path, payload, ServerTokenType), dst, json, err)
    {
      err := DoRequest(RequestSpec(MethodPatch, path, payload, ServerTokenType), dst, json);
    }

    method Put<P, T>(path: GoString, payload: Option<P>, dst: Destination?<T>, json: Json<P, T>) returns (err: Option<Error>)
      modifies http, dst
      ensures Performed(RequestSpec(MethodPut, path, payload, ServerTokenType), dst, json, err)
    {
      err := DoRequest(RequestSpec(MethodPut, path, payload, ServerTokenType), dst, json);
    }

    method PutWithAccountToken<P, T>(path: GoString, payload: Option<P>, dst: Destination?<T>, json: Json<P, T>) returns (err: Option<Error>)
      modifies http, dst
      ensures Performed(RequestSpec(MethodPut, path, payload, AccountTokenType), dst, json, err)
    {
      err := DoRequest(RequestSpec(MethodPut, path, payload, AccountTokenType), dst, json);
    }

    method Delete<T>(path: GoString, dst: Destination?<T>, json: Json<(), T>) returns (err: Option<Error>)
      modifies http, dst
      ensures Performed(RequestSpec(MethodDelete, path, None, ServerTokenType), dst, json, err)
    {
      err := DoRequest(RequestSpec(MethodDelete, path, None, ServerTokenType), dst, json);
    }

    method DeleteWithAccountToken<T>(path: GoString, dst: Destination?<T>, json: Json<(), T>) returns (err: Option<Error>)
      modifies http, dst
      ensures Performed(RequestSpec(MethodDelete, path, None, AccountTokenType), dst, json, err)
    {
      err := DoRequest(RequestSpec(MethodDelete, path, None, AccountTokenType), dst, json);
    }
  }
}
