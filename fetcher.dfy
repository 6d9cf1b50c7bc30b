/** The authenticated fetcher `httpRequestBody`: a guard on the HTTP method,
    one bearer-authenticated request, and the classification of the response.
    The HTTP client is abstract: `send` maps the request handed to it to what
    came back, a transport error or a status with the body as read. */
module Fetcher {
  import opened Wrappers

  newtype uint8 = x: int | 0 <= x < 256

  type Bytes = seq<uint8>

  /** A request as handed to the HTTP client: method, URL and the value of
      its Authorization header. */
  datatype Request = Request(verb: string, url: string, authorization: string)

  /** What the HTTP client returns for a request: a transport failure with its
      message, or a response with its status code, status line and body. */
  datatype Response =
    | TransportError(cause: string)
    | Reply(statusCode: int, status: string, body: Bytes)

  /** The request sent to the client (None when none was built) and the
      result handed back to the caller. */
  datatype Fetch = Fetch(sent: Option<Request>, result: Result<Bytes>)

  const MethodError: string := "incorrect http method"

  predicate AllowedVerb(verb: string)
  {
    verb == "GET" || verb == "POST"
  }

  /** The request built for an allowed method. */
  function BearerRequest(url: string, verb: string, token: string): Request
  {
    Request(verb, url, "Bearer " + token)
  }

  /** `httpRequestBody`: check the method, send one request with the bearer
      token, and hand back the body of a 200 reply or an error. */
  function HttpRequestBody(send: Request -> Response, url: string, verb: string, token: string): (f: Fetch)
    // no request is built unless the method is allowed, and then the refusal is the error
    ensures f.sent.None? <==> !AllowedVerb(verb)
    ensures f.sent.None? ==> f.result == Err(MethodError)
    // a body is only ever the body of the client's reply to the request sent
    ensures f.result.Ok? ==>
      && f.sent.Some?
      && send(f.sent.value).Reply?
      && send(f.sent.value).statusCode == 200
      && send(f.sent.value).body == f.result.value
  {
    if !AllowedVerb(verb) then
      Fetch(None, Err(MethodError))
    else
      var req := BearerRequest(url, verb, token);
      match send(req)
      case TransportError(cause) => Fetch(Some(req), Err(cause))
      case Reply(code, status, body) =>
        if code != 200 then Fetch(Some(req), Err(status))
        else Fetch(Some(req), Ok(body))
  }

  /** The method guard: a method other than GET or POST is refused with an
      error and no request is built; GET and POST build exactly one request,
      carrying the caller's URL and the bearer token. */
  lemma {:induction false} MethodGuard(send: Request -> Response, url: string, verb: string, token: string)
    ensures var f := HttpRequestBody(send, url, verb, token);
      && (f.sent.None? <==> !AllowedVerb(verb))
      && (!AllowedVerb(verb) ==> f.result == Err(MethodError))
      && (AllowedVerb(verb) ==> f.sent == Some(BearerRequest(url, verb, token)))
  {
  }

  /** The response classification: a body comes back exactly on a 200 reply
      and is that reply's body unchanged; any other status fails with its
      status line, a transport failure with its own message. */
  lemma {:induction false} ResponseClassification(send: Request -> Response, url: string, verb: string, token: string)
    requires AllowedVerb(verb)
    ensures var f := HttpRequestBody(send, url, verb, token);
      var reply := send(BearerRequest(url, verb, token));
      && (f.result.Ok? <==> reply.Reply? && reply.statusCode == 200)
      && (reply.Reply? && reply.statusCode == 200 ==> f.result == Ok(reply.body))
      && (reply.Reply? && reply.statusCode != 200 ==> f.result == Err(reply.status))
      && (reply.TransportError? ==> f.result == Err(reply.cause))
  {
  }

  /** Which request goes out, if any, is fixed by the caller's arguments before
      the client is reached: it does not depend on the transport, and a refused
      method fails the same way whatever the transport would have done. */
  lemma {:induction false} GuardIgnoresTransport(send1: Request -> Response, send2: Request -> Response,
                                                url: string, verb: string, token: string)
    ensures HttpRequestBody(send1, url, verb, token).sent == HttpRequestBody(send2, url, verb, token).sent
    ensures !AllowedVerb(verb) ==>
      HttpRequestBody(send1, url, verb, token) == HttpRequestBody(send2, url, verb, token)
  {
  }
}
