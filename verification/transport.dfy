/**
 The request/response layer under every client operation: turn a path, a
 method and an optional body into an HTTP request against the configured
 base URL, and turn the reply into a success value or an error.

 The network is not modelled: a `Network` supplies the two things the client
 cannot see, whether the URL library accepts a URL string and what the server
 answers to a request.
 */
module Transport {
  import opened Json
  import opened Errors

  /** Connection parameters: the base URL and an optional token. */
  datatype Config = Config(baseUrl: string, apiToken: Option<string>)

  datatype Method = GET | POST

  /** The request handed to the HTTP library. */
  datatype Request = Request(verb: Method, url: string, headers: map<string, string>, body: Option<Json>)

  /** A response body: JSON text, or something that does not parse as JSON. */
  datatype Payload = Unparsable | Document(doc: Json)

  /** What a send produces: a transport failure, or a response with a status and a body. */
  datatype Reply = TransportFailure | Received(status: int, payload: Payload)

  /** The two oracles: URL parsing and the server. */
  datatype Network = Network(parsesUrl: string -> bool, respond: Request -> Reply)

  /** An operation's request before it meets the network. */
  datatype Call = Call(verb: Method, path: string, body: Option<Json>)

  const AuthorizationHeader: string := "Authorization"

  /** The headers of every request: `Authorization` carrying the token verbatim when there is one, nothing otherwise. */
  function AuthHeaders(config: Config): (h: map<string, string>)
    ensures AuthorizationHeader in h <==> config.apiToken.Some?
    ensures config.apiToken.Some? ==> h[AuthorizationHeader] == config.apiToken.value
    ensures h.Keys <= {AuthorizationHeader}
  {
    match config.apiToken
    case Some(token) => map[AuthorizationHeader := token]
    case None => map[]
  }

  /**
   Builds the request for a call. The URL is the base URL followed by the
   path, with no separator added or removed; if the URL library rejects that
   string, the result is `UrlParseError`.
   */
  function Prepare(config: Config, call: Call, parsesUrl: string -> bool): (r: Result<Request>)
    ensures r.Err? <==> !parsesUrl(config.baseUrl + call.path)
    ensures r.Err? ==> r.error == UrlParseError
    ensures r.Ok? ==> |r.value.url| == |config.baseUrl| + |call.path|
                      && r.value.url[..|config.baseUrl|] == config.baseUrl
                      && r.value.url[|config.baseUrl|..] == call.path
    ensures r.Ok? ==> r.value.verb == call.verb && r.value.headers == AuthHeaders(config)
    ensures r.Ok? ==> (r.value.body.Some? <==> call.body.Some?) && r.value.body == call.body
  {
    var url := config.baseUrl + call.path;
    if parsesUrl(url) then Ok(Request(call.verb, url, AuthHeaders(config), call.body))
    else Err(UrlParseError)
  }

  /**
   Reads a reply as the untagged union "service error, else success value".
   The error shape is tried first, so a body with string `code` and `message`
   is a service error even when it would also read as a success value. The
   HTTP status plays no part.
   */
  function Complete<T>(reply: Reply, decode: Json -> Option<T>): (r: Result<T>)
    ensures r.Ok? <==> reply.Received? && reply.payload.Document?
                       && DecodeOpenFgaError(reply.payload.doc).None? && decode(reply.payload.doc).Some?
    ensures r.Ok? ==> decode(reply.payload.doc) == Some(r.value)
    ensures r.Err? ==> r.error.ReqwestError? || r.error.OpenFGAErrorRespone?
    ensures (r.Err? && r.error.OpenFGAErrorRespone?) <==>
              reply.Received? && reply.payload.Document? && DecodeOpenFgaError(reply.payload.doc).Some?
    ensures r.Err? && r.error.OpenFGAErrorRespone? ==>
              DecodeOpenFgaError(reply.payload.doc) == Some(r.error.response)
    ensures r == Err(ReqwestError(SendFailed)) <==> reply.TransportFailure?
    ensures r == Err(ReqwestError(BodyNotJson)) <==> reply.Received? && reply.payload.Unparsable?
  {
    match reply
    case TransportFailure => Err(ReqwestError(SendFailed))
    case Received(_, Unparsable) => Err(ReqwestError(BodyNotJson))
    case Received(_, Document(j)) =>
      match DecodeOpenFgaError(j)
      case Some(e) => Err(FromOpenFgaError(e))
      case None =>
        match decode(j)
        case Some(v) => Ok(v)
        case None => Err(ReqwestError(NoVariantMatched))
  }

  /**
   Sends a call: prepare the request, hand it to the server, read the reply.
   The server sees exactly the prepared request; nothing is sent when the URL
   does not parse.
   */
  function MakeRequest<T>(config: Config, call: Call, net: Network, decode: Json -> Option<T>): (r: Result<T>)
    ensures r == Err(UrlParseError) <==> !net.parsesUrl(config.baseUrl + call.path)
    ensures net.parsesUrl(config.baseUrl + call.path) ==>
              r == Complete(net.respond(Request(call.verb, config.baseUrl + call.path,
                                                AuthHeaders(config), call.body)), decode)
  {
    var request :- Prepare(config, call, net.parsesUrl);
    Complete(net.respond(request), decode)
  }

  /** The HTTP status of a response never changes the outcome. */
  lemma StatusIgnored<T>(s1: int, s2: int, p: Payload, decode: Json -> Option<T>)
    ensures Complete(Received(s1, p), decode) == Complete(Received(s2, p), decode)
  {
  }

  /** A body in the error shape is the service's error, carried verbatim, whatever the expected success type. */
  lemma ErrorShapeWins<T>(e: OpenFgaError, status: int, decode: Json -> Option<T>)
    ensures Complete(Received(status, Document(EncodeOpenFgaError(e))), decode) == Err(OpenFGAErrorRespone(e))
  {
  }

  /** A success body that is not also in the error shape reads back as the value it encodes. */
  lemma SuccessReadBack<T>(v: T, j: Json, status: int, decode: Json -> Option<T>)
    requires decode(j) == Some(v) && DecodeOpenFgaError(j).None?
    ensures Complete(Received(status, Document(j)), decode) == Ok(v)
  {
  }
}
