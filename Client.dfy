/** The client transport of src/client.ts: the service's base path, the
    framing of each call, buffering of the response, the split on the status
    code and the decoding of the error envelope. */
module Client {
  import opened Wrappers
  import opened Json
  import opened Http

  /** createTwirpClient's path: "/twirp/" and the service's full name without
      its first character (protobufjs full names start with "."). */
  function BasePath(fullName: string): (r: string)
    ensures |r| >= 7 && r[..7] == "/twirp/"
    ensures |fullName| > 0 ==> r[7..] == fullName[1..]
  {
    "/twirp/" + (if |fullName| == 0 then "" else fullName[1..])
  }

  /** The path a call to `methodName` is sent to. */
  function MethodPath(basePath: string, methodName: string): (r: string)
    ensures MethodFromPath(basePath, r) == Some(methodName)
  {
    var r := basePath + "/" + methodName;
    assert r[..|basePath| + 1] == basePath + "/" && r[|basePath| + 1..] == methodName;
    r
  }

  /** Reads the method name back from a request path, as a router serving
      `basePath` would. */
  function MethodFromPath(basePath: string, path: string): (r: Option<string>)
    ensures r.Some? ==> |r.value| == |path| - |basePath| - 1
  {
    if |path| > |basePath| && path[..|basePath| + 1] == basePath + "/" then Some(path[|basePath| + 1..])
    else None
  }

  /** A call's path determines the method name, and the method name the path. */
  lemma MethodPathIff(basePath: string, path: string, methodName: string)
    ensures MethodFromPath(basePath, path) == Some(methodName) <==> MethodPath(basePath, methodName) == path
  {
    var p := MethodPath(basePath, methodName);
    assert p[..|basePath| + 1] == basePath + "/";
    assert p[|basePath| + 1..] == methodName;
    if MethodFromPath(basePath, path) == Some(methodName) {
      assert path == path[..|basePath| + 1] + path[|basePath| + 1..];
    }
  }

  /** A service whose full name is "." + `name` is served under
      "/twirp/" + `name` + "/", as the generated path prefix shows. */
  lemma ServicePrefix(name: string, methodName: string)
    ensures BasePath("." + name) + "/" == "/twirp/" + name + "/"
    ensures MethodPath(BasePath("." + name), methodName) == "/twirp/" + name + "/" + methodName
  {
    assert ("." + name)[1..] == name;
  }

  /** The haberdasher example service. */
  lemma HaberdasherPrefix()
    ensures BasePath(".twitch.twirp.example.Haberdasher") + "/" == "/twirp/twitch.twirp.example.Haberdasher/"
  {
    var name := "twitch.twirp.example.Haberdasher";
    assert "." + name == ".twitch.twirp.example.Haberdasher";
    ServicePrefix(name, "");
  }

  /** What twirpRPCImpl closes over. */
  datatype RpcParams = RpcParams(host: string, port: int, path: string)

  /** createTwirpClient's parameters for the transport: the host and port as
      given, and the service's base path. */
  function ClientParams(host: string, port: int, fullName: string): (r: RpcParams)
    ensures r.host == host && r.port == port
    ensures |fullName| > 0 ==> r.path == "/twirp/" + fullName[1..]
  {
    RpcParams(host, port, BasePath(fullName))
  }

  /** A client created for the service ".N" posts method `m` to
      "/twirp/N/m" on the given host and port. */
  lemma ClientSendsToServicePath(host: string, port: int, name: string, methodName: string, requestData: seq<byte>)
    ensures Frame(ClientParams(host, port, "." + name), methodName, requestData).path == "/twirp/" + name + "/" + methodName
    ensures Frame(ClientParams(host, port, "." + name), methodName, requestData).hostname == host
  {
    ServicePrefix(name, methodName);
  }

  /** An outgoing HTTP request: the options given to `http.request` and the
      body given to `req.end`. */
  datatype OutgoingRequest = OutgoingRequest(
    hostname: string, port: int, path: string, verb: string,
    headers: map<string, HeaderValue>, body: seq<byte>)

  /** The request every call sends: POST to the method's path, binary
      content type, and a Content-Length equal to the body's length. */
  function Frame(params: RpcParams, methodName: string, requestData: seq<byte>): (r: OutgoingRequest)
    ensures r.verb == "POST" && r.body == requestData
    ensures r.hostname == params.host && r.port == params.port
    ensures MethodFromPath(params.path, r.path) == Some(methodName)
    ensures r.headers.Keys == {"Content-Type", "Content-Length"}
    ensures r.headers["Content-Type"] == HeaderText("application/protobuf")
    ensures r.headers["Content-Length"] == HeaderNumber(|r.body|)
  {
    MethodPathIff(params.path, MethodPath(params.path, methodName), methodName);
    OutgoingRequest(
      params.host, params.port, MethodPath(params.path, methodName), "POST",
      map["Content-Type" := HeaderText("application/protobuf"), "Content-Length" := HeaderNumber(|requestData|)],
      requestData)
  }

  /** What happens on the wire after the request is sent: the request fails
      before any response, or a response arrives with a status and a body
      stream. */
  datatype Exchange = RequestFailed(error: string) | Responded(statusCode: int, events: seq<StreamEvent>)

  /** The error handed to the callback: a transport error passed on as it is,
      or an `Error` built from an error envelope (`name` is whatever the
      envelope's `code` property holds). */
  datatype CallError = Transport(error: string) | Remote(name: Option<Json>, message: string)

  /** How the call ends: the callback is never called, it is called once with
      (error, data), or decoding the envelope throws inside the 'end' listener. */
  datatype Completion = NotCalled | Called(err: Option<CallError>, data: Option<seq<byte>>) | Uncaught(reason: string)

  /** `JSON.parse(data.toString())`; `None` stands for a SyntaxError. */
  type Parser = seq<byte> -> Option<Json>

  /** `new Error(v).message`: empty for `undefined`, otherwise `String(v)`;
      `None` where that conversion throws. */
  function ErrorMessage(v: Option<Json>): (m: Option<string>)
    ensures v.None? ==> m == Some("")
    ensures v.Some? ==> (m.Some? <==> Printable(v.value))
    ensures v.Some? && v.value.Str? ==> m == Some(v.value.s)
  {
    match v
    case None => Some("")
    case Some(j) => JsString(j)
  }

  /** getTwirpError: the message from the envelope's `msg`, the name from its
      `code`. It throws a SyntaxError when the body is not JSON, and a
      TypeError when it is `null` or its `msg` cannot be made a string. */
  function GetTwirpError(parse: Parser, data: seq<byte>): (r: Result<CallError, string>)
    ensures r.Success? <==>
              parse(data).Some? && parse(data).value != Null
              && (Property(parse(data).value, "msg").Some? ==> Printable(Property(parse(data).value, "msg").value))
    ensures r.Failure? ==> (r.error == "SyntaxError" <==> parse(data).None?)
    ensures r.Success? ==>
              r.value.Remote?
              && r.value.name == Property(parse(data).value, "code")
              && Some(r.value.message) == ErrorMessage(Property(parse(data).value, "msg"))
  {
    match parse(data)
    case None => Failure("SyntaxError")
    case Some(json) =>
      if json == Null then Failure("TypeError")
      else match ErrorMessage(Property(json, "msg"))
        case None => Failure("TypeError")
        case Some(m) => Success(Remote(Property(json, "code"), m))
  }

  /** The reference definition of how a call completes: transport errors go
      to the callback unchanged; a response body is buffered until 'end',
      then status 200 hands over the data and any other status the decoded
      error. The callback never receives both an error and data. */
  function Complete(exchange: Exchange, parse: Parser): (c: Completion)
    ensures c.Called? ==> (c.err.None? <==> c.data.Some?)
  {
    match exchange
    case RequestFailed(e) => Called(Some(Transport(e)), None)
    case Responded(status, events) =>
      match Settle(events)
      case Pending => NotCalled
      case Rejected(e) => Called(Some(Transport(e)), None)
      case Resolved(data) =>
        if status != 200 then
          match GetTwirpError(parse, data)
          case Success(err) => Called(Some(err), None)
          case Failure(reason) => Uncaught(reason)
        else Called(None, Some(data))
  }

  /** twirpRPCImpl's call: frames and sends the request, pushes each response
      chunk into a buffer, and on 'end' branches on the status code. */
  method Call(params: RpcParams, methodName: string, requestData: seq<byte>, exchange: Exchange, parse: Parser)
    returns (sent: OutgoingRequest, completion: Completion)
    ensures sent == Frame(params, methodName, requestData)
    ensures completion == Complete(exchange, parse)
  {
    sent := Frame(params, methodName, requestData);
    if exchange.RequestFailed? {
      completion := Called(Some(Transport(exchange.error)), None);
      return;
    }
    var events := exchange.events;
    var chunks: seq<seq<byte>> := [];
    var i := 0;
    while i < |events|
      invariant 0 <= i <= |events|
      invariant forall k :: 0 <= k < i ==> events[k].Data?
      invariant chunks == Chunks(events[..i])
    {
      match events[i] {
        case Data(c) =>
          assert events[..i + 1] == events[..i] + [events[i]];
          chunks := chunks + [c];
        case End =>
          SettleAtFirstTerminal(events, i);
          var data := Concat(chunks);
          if exchange.statusCode != 200 {
            var error := GetTwirpError(parse, data);
            completion := if error.Success? then Called(Some(error.value), None) else Uncaught(error.error);
          } else {
            completion := Called(None, Some(data));
          }
          return;
        case Failed(e) =>
          SettleAtFirstTerminal(events, i);
          completion := Called(Some(Transport(e)), None);
          return;
      }
      i := i + 1;
    }
    SettleWithoutTerminal(events);
    completion := NotCalled;
  }

  /** Status 200 hands the buffered body to the caller; any other status
      hands over an error (or throws while decoding it) and never data. */
  lemma StatusSplit(status: int, events: seq<StreamEvent>, parse: Parser, data: seq<byte>)
    requires Settle(events) == Resolved(data)
    ensures status == 200 ==> Complete(Responded(status, events), parse) == Called(None, Some(data))
    ensures status != 200 ==> match Complete(Responded(status, events), parse)
      case Called(err, d) => err.Some? && err.value.Remote? && d.None?
      case Uncaught(_) => true
      case NotCalled => false
  {
  }

  /** The data handed over is every chunk that arrived before 'end', in order. */
  lemma ResponseBodyInOrder(events: seq<StreamEvent>, i: nat, parse: Parser)
    requires i < |events| && events[i].End?
    requires forall k :: 0 <= k < i ==> events[k].Data?
    ensures Complete(Responded(200, events), parse) == Called(None, Some(Concat(Chunks(events[..i]))))
  {
    SettleAtFirstTerminal(events, i);
  }

  /** Errors of the request or of the response stream reach the callback
      unchanged, never as a decoded Twirp error. */
  lemma TransportErrorsPassThrough(status: int, events: seq<StreamEvent>, parse: Parser, e: string)
    ensures Complete(RequestFailed(e), parse) == Called(Some(Transport(e)), None)
    ensures Settle(events) == Rejected(e) ==> Complete(Responded(status, events), parse) == Called(Some(Transport(e)), None)
  {
  }

  /** An error status whose body is JSON but not an object (a string, say)
      still reaches the callback: as an Error with no name and an empty
      message. */
  lemma NonEnvelopeReachesCallback(status: int, events: seq<StreamEvent>, parse: Parser, data: seq<byte>, s: string)
    requires status != 200 && Settle(events) == Resolved(data) && parse(data) == Some(Str(s))
    ensures Complete(Responded(status, events), parse) == Called(Some(Remote(None, "")), None)
  {
  }

  /** An error status whose `msg` is an object with its own "toString"
      property makes `new Error` throw inside the 'end' listener: the
      callback is never called. */
  lemma UnprintableMessageUncaught(status: int, events: seq<StreamEvent>, parse: Parser, data: seq<byte>, ms: seq<Member>)
    requires status != 200 && Settle(events) == Resolved(data)
    requires parse(data).Some? && Property(parse(data).value, "msg") == Some(Obj(ms))
    requires exists i :: 0 <= i < |ms| && ms[i].key == "toString"
    ensures Complete(Responded(status, events), parse) == Uncaught("TypeError")
  {
  }
}
