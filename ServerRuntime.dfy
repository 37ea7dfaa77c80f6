/** The server side of src/server-runtime.ts: content-type negotiation, the
    guard chain of handleRequest, collecting the request body, and the error
    framing of writeError, over a response object that is updated in place. */
module ServerRuntime {
  import opened Wrappers
  import opened Json
  import opened Errors
  import opened Http

  /** TwirpContentType; `Tag` gives the number each member stands for. */
  datatype ContentType = Protobuf | JSON | Unknown

  function Tag(ct: ContentType): (n: int)
    ensures n == 0 <==> ct == Protobuf
    ensures n == 1 <==> ct == JSON
    ensures n == 2 <==> ct == ContentType.Unknown
  {
    match ct
    case Protobuf => 0
    case JSON => 1
    case Unknown => 2
  }

  /** getContentType: an exact, case-sensitive match of the header value. */
  function GetContentType(mimeType: Option<string>): (ct: ContentType)
    ensures ct == Protobuf <==> mimeType == Some("application/protobuf")
    ensures ct == JSON <==> mimeType == Some("application/json")
  {
    match mimeType
    case Some("application/protobuf") => Protobuf
    case Some("application/json") => JSON
    case _ => ContentType.Unknown
  }

  /** What a handler resolves with: `Uint8Array | string`. */
  datatype Payload = Binary(bytes: seq<byte>) | Text(text: string)

  /** What the promise a handler returns does: it resolves with a payload,
      rejects with what the handler throws, or never settles. */
  datatype Outcome = Fulfilled(payload: Payload) | Threw(thrown: Thrown) | NeverSettles

  /** A handler with its rpcHandlers bound: it receives the request body and
      returns a promise. */
  type Handler = seq<byte> -> Outcome

  /** The generated router: the handler for a url and content type, if any. */
  type Router = (Option<string>, ContentType) -> Option<Handler>

  /** An inbound request: its HTTP method (`req.method`), its url (`undefined` is `None`), its
      Content-Type header and the events of its body stream. */
  datatype Request = Request(verb: string, url: Option<string>, contentType: Option<string>, body: seq<StreamEvent>)

  /** What `end` was given: nothing yet, a handler's payload, or the
      serialization of a JSON document. */
  datatype Body = Empty | Raw(payload: Payload) | Serialized(document: Json)

  const ContentTypeHeader: string := "Content-Type"

  /** The wire form of an error: the object {code, msg}. */
  function Envelope(e: TwirpError): (j: Json)
    ensures Property(j, "code") == Some(Str(e.Name()))
    ensures Property(j, "msg") == Some(Str(e.message))
  {
    var members := [Member("code", Str(e.Name())), Member("msg", Str(e.message))];
    assert members[..1] == [members[0]] && members[..1][..0] == [];
    Obj(members)
  }

  /** The Twirp error writeError sends: a Twirp error as it is, any other
      `Error` as an internal error carrying the original message. For a thrown
      value that is not an object the `in` test itself throws: `None`. */
  function Normalize(error: Thrown): (e: Option<TwirpError>)
    ensures e.None? <==> error.Primitive?
    ensures error.Twirp? ==> e == Some(error.error)
    ensures error.Plain? ==> e.value.code == Internal && e.value.Status() == 500 && e.value.message == error.message
  {
    match error
    case Twirp(t) => Some(t)
    case Plain(m) => Some(InternalServerError(m))
    case Primitive => None
  }

  /** What writeError leaves on the response: the error's envelope, or, when
      the error is not an object, only the JSON content type and no end. */
  function ErrorResponse(error: Thrown): (r: Reply)
    ensures r.Abandoned? <==> error.Primitive?
    ensures r.ErrorReply? <==> Normalize(error).Some?
    ensures r.ErrorReply? ==> r.error == Normalize(error).value
  {
    match Normalize(error)
    case None => Abandoned
    case Some(e) => ErrorReply(e)
  }

  /** http.ServerResponse as the runtime uses it. */
  class Response {
    var statusCode: int
    var headers: map<string, HeaderValue>
    var body: Body
    /** How many times `end` has been called. */
    var ended: nat

    /** A fresh response: Node's default status 200, nothing written. */
    constructor ()
      ensures statusCode == 200 && headers == map[] && body == Empty && ended == 0
    {
      statusCode := 200;
      headers := map[];
      body := Empty;
      ended := 0;
    }

    method SetHeader(name: string, value: HeaderValue)
      modifies this
      ensures headers == old(headers)[name := value]
      ensures statusCode == old(statusCode) && body == old(body) && ended == old(ended)
    {
      headers := headers[name := value];
    }

    method End(b: Body)
      modifies this
      ensures body == b && ended == old(ended) + 1
      ensures statusCode == old(statusCode) && headers == old(headers)
    {
      body := b;
      ended := ended + 1;
    }

    /** The response shows `reply` on top of the given earlier state: an error
        as JSON with its code's status, a success as the handler's payload
        under the negotiated content-type tag, and no reply as no change. */
    ghost predicate Shows(reply: Reply, status0: int, headers0: map<string, HeaderValue>, body0: Body, ended0: nat)
      reads this
    {
      match reply
      case NoReply =>
        statusCode == status0 && headers == headers0 && body == body0 && ended == ended0
      case Abandoned =>
        headers == headers0[ContentTypeHeader := HeaderText("application/json")]
        && statusCode == status0 && body == body0 && ended == ended0
      case ErrorReply(e) =>
        headers == headers0[ContentTypeHeader := HeaderText("application/json")]
        && statusCode == e.Status()
        && body == Serialized(Envelope(e))
        && ended == ended0 + 1
      case PayloadReply(ct, p) =>
        headers == headers0[ContentTypeHeader := HeaderNumber(Tag(ct))]
        && statusCode == status0
        && body == Raw(p)
        && ended == ended0 + 1
    }

    /** writeError: JSON content type, the status of the error's code, the
        envelope as body, and the response ended once; an error that is not
        an object stops it after the content type, leaving the response open. */
    method WriteError(error: Thrown)
      modifies this
      ensures Shows(ErrorResponse(error), old(statusCode), old(headers), old(body), old(ended))
      ensures headers[ContentTypeHeader] == HeaderText("application/json")
      ensures error.Primitive? ==> statusCode == old(statusCode) && body == old(body) && ended == old(ended)
      ensures !error.Primitive? ==> statusCode == Normalize(error).value.Status()
      ensures !error.Primitive? ==> body == Serialized(Envelope(Normalize(error).value))
      ensures !error.Primitive? ==> ended == old(ended) + 1
    {
      SetHeader(ContentTypeHeader, HeaderText("application/json"));
      if error.Primitive? {
        // `'isTwirpError' in error` throws a TypeError
        return;
      }
      var twirpError: TwirpError;
      if error.Twirp? {
        twirpError := error.error;
      } else {
        twirpError := InternalServerError(error.message);
      }
      statusCode := twirpError.Status();
      End(Serialized(Envelope(twirpError)));
    }
  }

  /** getRequestData: pushes each data chunk into a buffer; on 'end' resolves
      with the buffer concatenated, on 'error' rejects with the error. */
  method GetRequestData(events: seq<StreamEvent>) returns (r: Settled)
    ensures r == Settle(events)
  {
    var chunks: seq<seq<byte>> := [];
    var i := 0;
    while i < |events|
      invariant 0 <= i <= |events|
      invariant forall k :: 0 <= k < i ==> events[k].Data?
      invariant chunks == Chunks(events[..i])
    {
      match events[i] {
        case Data(c) =>
          assert events[..i + 1] == events[..i] + [events[i]];
          chunks := chunks + [c];
        case End =>
          SettleAtFirstTerminal(events, i);
          return Resolved(Concat(chunks));
        case Failed(e) =>
          SettleAtFirstTerminal(events, i);
          return Rejected(e);
      }
      i := i + 1;
    }
    SettleWithoutTerminal(events);
    r := Pending;
  }

  /** The content type and handler a request is dispatched to. */
  datatype Route = Route(contentType: ContentType, handler: Handler)

  /** The checks of handleRequest before the body is read, in order: POST
      only, a Content-Type header, a recognised Content-Type, a route. The
      first that fails decides the error, and every such error is bad_route. */
  function Admit(req: Request, router: Router): (r: Result<Route, TwirpError>)
    ensures r.Success? <==>
      req.verb == "POST" && req.contentType.Some? && req.contentType.value != ""
      && GetContentType(req.contentType) != ContentType.Unknown
      && router(req.url, GetContentType(req.contentType)).Some?
    ensures r.Success? ==> r.value.contentType == GetContentType(req.contentType)
                           && Some(r.value.handler) == router(req.url, r.value.contentType)
    ensures r.Failure? ==> r.error.code == BadRoute && r.error.Status() == 404
  {
    if req.verb != "POST" then
      Failure(BadRouteError("unsupported method " + req.verb + " (only POST is allowed)"))
    else if req.contentType.None? || req.contentType.value == "" then
      Failure(BadRouteError("missing Content-Type header"))
    else if GetContentType(req.contentType) == ContentType.Unknown then
      Failure(BadRouteError("unexpected Content-Type: " + req.contentType.value))
    else match router(req.url, GetContentType(req.contentType))
      case None => Failure(BadRouteError("no handler for path " + UrlText(req.url)))
      case Some(h) => Success(Route(GetContentType(req.contentType), h))
  }

  /** How a url prints inside a template string. */
  function UrlText(url: Option<string>): string
  {
    match url
    case None => "undefined"
    case Some(u) => u
  }

  /** The outcome of one request. */
  datatype Reply =
    | NoReply
    | Abandoned
    | ErrorReply(error: TwirpError)
    | PayloadReply(contentType: ContentType, payload: Payload)

  /** The reference definition of handleRequest's response: the admission
      checks, then the body, then the handler. A body stream or a handler
      promise that never settles leaves the request unanswered. */
  function Respond(req: Request, router: Router): (r: Reply)
    ensures Admit(req, router).Failure? ==> r == ErrorReply(Admit(req, router).error)
    ensures r.PayloadReply? ==> r.contentType == GetContentType(req.contentType) && r.contentType != ContentType.Unknown
    ensures r.PayloadReply? ==> Settle(req.body).Resolved?
  {
    match Admit(req, router)
    case Failure(e) => ErrorReply(e)
    case Success(route) =>
      match Settle(req.body)
      case Pending => NoReply
      case Rejected(m) => ErrorResponse(Plain(m))
      case Resolved(data) =>
        match route.handler(data)
        case NeverSettles => NoReply
        case Threw(t) => ErrorResponse(t)
        case Fulfilled(p) => PayloadReply(route.contentType, p)
  }

  /** How many times handleRequest invokes the handler. */
  function HandlerCalls(req: Request, router: Router): (n: nat)
    ensures n <= 1
    ensures n == 1 <==> Admit(req, router).Success? && Settle(req.body).Resolved?
  {
    if Admit(req, router).Success? && Settle(req.body).Resolved? then 1 else 0
  }

  /** handleRequest, with early returns after each failed check. It returns
      how many times it invoked the handler. */
  method HandleRequest(req: Request, res: Response, router: Router) returns (handlerCalls: nat)
    modifies res
    ensures res.Shows(Respond(req, router), old(res.statusCode), old(res.headers), old(res.body), old(res.ended))
    ensures handlerCalls == HandlerCalls(req, router)
  {
    if req.verb != "POST" {
      res.WriteError(Twirp(BadRouteError("unsupported method " + req.verb + " (only POST is allowed)")));
      return 0;
    }

    var contentTypeMimeType := req.contentType;
    if contentTypeMimeType.None? || contentTypeMimeType.value == "" {
      res.WriteError(Twirp(BadRouteError("missing Content-Type header")));
      return 0;
    }

    var contentType := GetContentType(contentTypeMimeType);
    if contentType == ContentType.Unknown {
      res.WriteError(Twirp(BadRouteError("unexpected Content-Type: " + contentTypeMimeType.value)));
      return 0;
    }

    var handler := router(req.url, contentType);
    if handler.None? {
      res.WriteError(Twirp(BadRouteError("no handler for path " + UrlText(req.url))));
      return 0;
    }

    var requestData := GetRequestData(req.body);
    if requestData.Pending? {
      // the awaited promise never settles: nothing more happens
      return 0;
    }
    if requestData.Rejected? {
      res.WriteError(Plain(requestData.error));
      return 0;
    }

    var responseData := handler.value(requestData.data);
    handlerCalls := 1;
    if responseData.NeverSettles? {
      // the awaited promise never settles: nothing more happens
      return;
    }
    if responseData.Threw? {
      res.WriteError(responseData.thrown);
      return;
    }

    res.SetHeader(ContentTypeHeader, HeaderNumber(Tag(contentType)));
    res.End(Raw(responseData.payload));
  }

  /** A non-POST request is refused as bad_route naming the method, whatever
      its url, headers or body and whatever the router: none is consulted. */
  lemma NonPostRejected(req: Request, router: Router, other: Request, otherRouter: Router)
    requires req.verb != "POST" && other.verb == req.verb
    ensures Respond(req, router) == ErrorReply(BadRouteError("unsupported method " + req.verb + " (only POST is allowed)"))
    ensures Respond(other, otherRouter) == Respond(req, router)
    ensures HandlerCalls(req, router) == 0
  {
  }

  /** An absent or empty Content-Type is refused before the router is asked. */
  lemma MissingContentTypeRejected(req: Request, router: Router, otherRouter: Router)
    requires req.verb == "POST" && (req.contentType == None || req.contentType == Some(""))
    ensures Respond(req, router) == ErrorReply(BadRouteError("missing Content-Type header"))
    ensures Respond(req, otherRouter) == Respond(req, router)
    ensures HandlerCalls(req, router) == 0
  {
  }

  /** An unrecognised Content-Type is refused with the value quoted verbatim. */
  lemma UnexpectedContentTypeRejected(req: Request, router: Router, otherRouter: Router, v: string)
    requires req.verb == "POST" && req.contentType == Some(v) && v != ""
    requires v != "application/protobuf" && v != "application/json"
    ensures Respond(req, router) == ErrorReply(BadRouteError("unexpected Content-Type: " + v))
    ensures Respond(req, otherRouter) == Respond(req, router)
    ensures HandlerCalls(req, router) == 0
  {
  }

  /** A url the router does not know is refused with the url quoted. */
  lemma UnroutedPathRejected(req: Request, router: Router, u: string)
    requires req.verb == "POST" && req.url == Some(u)
    requires req.contentType == Some("application/protobuf") || req.contentType == Some("application/json")
    requires router(req.url, GetContentType(req.contentType)) == None
    ensures Respond(req, router) == ErrorReply(BadRouteError("no handler for path " + u))
    ensures HandlerCalls(req, router) == 0
  {
  }

  /** The request is left unanswered exactly when every check passed and
      then the body stream neither ended nor failed, or the handler's promise
      never settled. */
  lemma UnansweredOnlyWhilePending(req: Request, router: Router)
    ensures Respond(req, router) == NoReply <==>
      Admit(req, router).Success?
      && (Settle(req.body) == Pending
          || (Settle(req.body).Resolved? && Admit(req, router).value.handler(Settle(req.body).data) == NeverSettles))
  {
  }

  /** The response is left open with only its JSON content type set exactly
      when the handler throws something that is not an object. */
  lemma AbandonedOnlyOnPrimitiveThrow(req: Request, router: Router)
    ensures Respond(req, router) == Abandoned <==>
      Admit(req, router).Success? && Settle(req.body).Resolved?
      && Admit(req, router).value.handler(Settle(req.body).data) == Threw(Primitive)
  {
  }

  /** A body stream that fails is answered as an internal error with the
      stream's message, and the handler is not invoked. */
  lemma BodyReadFailure(req: Request, router: Router, m: string)
    requires Admit(req, router).Success? && Settle(req.body) == Rejected(m)
    ensures Respond(req, router) == ErrorReply(TwirpError(Internal, m))
    ensures Respond(req, router).error.Status() == 500
    ensures HandlerCalls(req, router) == 0
  {
  }

  /** What the handler throws decides the error: a Twirp error is sent as it
      is, any other error as internal (500) with the original message, and a
      thrown non-object leaves the response open. */
  lemma HandlerFailure(req: Request, router: Router, data: seq<byte>, thrown: Thrown)
    requires Admit(req, router).Success? && Settle(req.body) == Resolved(data)
    requires Admit(req, router).value.handler(data) == Threw(thrown)
    ensures thrown.Twirp? ==> Respond(req, router) == ErrorReply(thrown.error)
    ensures thrown.Plain? ==> Respond(req, router) == ErrorReply(TwirpError(Internal, thrown.message))
    ensures thrown.Primitive? ==> Respond(req, router) == Abandoned
    ensures HandlerCalls(req, router) == 1
  {
  }

  /** A success reply carries exactly what the handler resolved with, for the
      body the stream delivered, under the negotiated content type. */
  lemma SuccessReply(req: Request, router: Router, ct: ContentType, p: Payload)
    ensures Respond(req, router) == PayloadReply(ct, p) <==>
      Admit(req, router).Success? && Settle(req.body).Resolved?
      && Admit(req, router).value.handler(Settle(req.body).data) == Fulfilled(p)
      && ct == GetContentType(req.contentType)
    ensures Respond(req, router) == PayloadReply(ct, p) ==> ct != ContentType.Unknown
  {
  }
}
