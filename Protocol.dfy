/** What the server's framing and the client's decoding guarantee together:
    an error written by writeError reaches the caller of the protobuf client
    with the same code and message, and a success reaches it as data. */
module Protocol {
  import opened Wrappers
  import opened Json
  import opened Errors
  import opened Http
  import opened ServerRuntime
  import Client

  /** The envelope writeError sends is read back by getTwirpError: the name
      is the code's wire string, which decodes to the same code, and the
      message is the same. */
  lemma EnvelopeRoundTrip(e: TwirpError, parse: Client.Parser, data: seq<byte>)
    requires parse(data) == Some(Envelope(e))
    ensures Client.GetTwirpError(parse, data) == Success(Client.Remote(Some(Str(e.Name())), e.message))
    ensures FromWire(e.Name()) == Some(e.code)
  {
    FromWireIff(e.Name(), e.code);
  }

  /** An error reply that handleRequest writes on a fresh response (status
      200, no headers, nothing written) reaches the caller, whose stream
      delivers bytes that parse back to the written document, as an error
      with the same code and message and never as data: the status written
      is the code's, and no such status is 200. */
  lemma ErrorReplyReachesCaller(req: Request, router: Router, res: Response, e: TwirpError,
                                parse: Client.Parser, events: seq<StreamEvent>, data: seq<byte>)
    requires Respond(req, router) == ErrorReply(e)
    requires res.Shows(Respond(req, router), 200, map[], Empty, 0)
    requires Settle(events) == Resolved(data) && res.body.Serialized? && parse(data) == Some(res.body.document)
    ensures res.statusCode == e.Status() && res.statusCode != 200
    ensures Client.Complete(Client.Responded(res.statusCode, events), parse)
            == Client.Called(Some(Client.Remote(Some(Str(Wire(e.code))), e.message)), None)
  {
    EnvelopeRoundTrip(e, parse, data);
  }

  /** A handler that throws a plain Error: the response written on a fresh
      response has status 500, and the caller receives an error named
      "internal" carrying the thrown message. */
  lemma ThrownErrorReachesCaller(req: Request, router: Router, res: Response, body: seq<byte>, m: string,
                                 parse: Client.Parser, events: seq<StreamEvent>, data: seq<byte>)
    requires Admit(req, router).Success? && Settle(req.body) == Resolved(body)
    requires Admit(req, router).value.handler(body) == Threw(Plain(m))
    requires res.Shows(Respond(req, router), 200, map[], Empty, 0)
    requires Settle(events) == Resolved(data) && res.body.Serialized? && parse(data) == Some(res.body.document)
    ensures res.statusCode == 500
    ensures Client.Complete(Client.Responded(res.statusCode, events), parse)
            == Client.Called(Some(Client.Remote(Some(Str("internal")), m)), None)
  {
    HandlerFailure(req, router, body, Plain(m));
    ErrorReplyReachesCaller(req, router, res, InternalServerError(m), parse, events, data);
  }

  /** A binary success reply written on a fresh response keeps its status
      200, so the caller, whose stream delivers the bytes the response was
      ended with, receives exactly the handler's bytes. */
  lemma SuccessReachesCaller(req: Request, router: Router, res: Response, ct: ContentType, bytes: seq<byte>,
                             parse: Client.Parser, events: seq<StreamEvent>)
    requires Respond(req, router) == PayloadReply(ct, Binary(bytes))
    requires res.Shows(Respond(req, router), 200, map[], Empty, 0)
    requires res.body.Raw? && res.body.payload.Binary? && Settle(events) == Resolved(res.body.payload.bytes)
    ensures res.statusCode == 200
    ensures Client.Complete(Client.Responded(res.statusCode, events), parse) == Client.Called(None, Some(bytes))
  {
  }
}
