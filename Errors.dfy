/** The Twirp error model of src/errors.ts: the closed set of error codes with
    their wire strings, the code-to-HTTP-status table, the validity test, the
    error classes and the mapper for statuses produced by intermediaries. */
module Errors {
  import opened Wrappers

  /** The seventeen error codes of the Twirp wire protocol. */
  datatype ErrorCode =
    | Canceled | Unknown | InvalidArgument | DeadlineExceeded | NotFound
    | BadRoute | AlreadyExists | PermissionDenied | Unauthenticated
    | ResourceExhausted | FailedPrecondition | Aborted | OutOfRange
    | Unimplemented | Internal | Unavailable | DataLoss

  /** The snake_case string each enum member stands for on the wire. */
  function Wire(c: ErrorCode): (r: string)
    ensures |r| > 0 && forall ch | ch in r :: 'a' <= ch <= 'z' || ch == '_'
  {
    match c
    case Canceled => "canceled"
    case Unknown => "unknown"
    case InvalidArgument => "invalid_argument"
    case DeadlineExceeded => "deadline_exceeded"
    case NotFound => "not_found"
    case BadRoute => "bad_route"
    case AlreadyExists => "already_exists"
    case PermissionDenied => "permission_denied"
    case Unauthenticated => "unauthenticated"
    case ResourceExhausted => "resource_exhausted"
    case FailedPrecondition => "failed_precondition"
    case Aborted => "aborted"
    case OutOfRange => "out_of_range"
    case Unimplemented => "unimplemented"
    case Internal => "internal"
    case Unavailable => "unavailable"
    case DataLoss => "data_loss"
  }

  /** The code a wire string names, if it names one. */
  function FromWire(s: string): (r: Option<ErrorCode>)
    ensures r.Some? ==> Wire(r.value) == s
  {
    match s
    case "canceled" => Some(Canceled)
    case "unknown" => Some(Unknown)
    case "invalid_argument" => Some(InvalidArgument)
    case "deadline_exceeded" => Some(DeadlineExceeded)
    case "not_found" => Some(NotFound)
    case "bad_route" => Some(BadRoute)
    case "already_exists" => Some(AlreadyExists)
    case "permission_denied" => Some(PermissionDenied)
    case "unauthenticated" => Some(Unauthenticated)
    case "resource_exhausted" => Some(ResourceExhausted)
    case "failed_precondition" => Some(FailedPrecondition)
    case "aborted" => Some(Aborted)
    case "out_of_range" => Some(OutOfRange)
    case "unimplemented" => Some(Unimplemented)
    case "internal" => Some(Internal)
    case "unavailable" => Some(Unavailable)
    case "data_loss" => Some(DataLoss)
    case _ => None
  }

  /** Decoding a wire string gives back exactly the code it was written from:
      the seventeen strings are pairwise distinct. */
  lemma FromWireIff(s: string, c: ErrorCode)
    ensures FromWire(s) == Some(c) <==> Wire(c) == s
  {
  }

  /** Code to wire string is injective. */
  lemma WireInjective(a: ErrorCode, b: ErrorCode)
    ensures Wire(a) == Wire(b) ==> a == b
  {
    FromWireIff(Wire(a), a);
    FromWireIff(Wire(a), b);
  }

  /** serverHTTPStatusFromErrorCode: the switch over the enum's string values;
      any other string reaches the `default` branch and yields 0. */
  function ServerHTTPStatusFromErrorCode(code: string): (status: int)
    ensures status == 0 <==> FromWire(code).None?
    ensures status != 0 ==> 400 <= status <= 599
  {
    match code
    case "canceled" => 408
    case "unknown" => 500
    case "invalid_argument" => 400
    case "deadline_exceeded" => 408
    case "not_found" => 404
    case "bad_route" => 404
    case "already_exists" => 409
    case "permission_denied" => 403
    case "unauthenticated" => 401
    case "resource_exhausted" => 403
    case "failed_precondition" => 412
    case "aborted" => 409
    case "out_of_range" => 400
    case "unimplemented" => 501
    case "internal" => 500
    case "unavailable" => 503
    case "data_loss" => 500
    case _ => 0
  }

  /** The status of a code of the enum: never 0, always a client or server error. */
  function HttpStatus(c: ErrorCode): (status: int)
    ensures 400 <= status <= 599
  {
    FromWireIff(Wire(c), c);
    ServerHTTPStatusFromErrorCode(Wire(c))
  }

  /** The fixed table, code by code. */
  lemma StatusTable()
    ensures HttpStatus(Canceled) == 408 && HttpStatus(Unknown) == 500
    ensures HttpStatus(InvalidArgument) == 400 && HttpStatus(DeadlineExceeded) == 408
    ensures HttpStatus(NotFound) == 404 && HttpStatus(BadRoute) == 404
    ensures HttpStatus(AlreadyExists) == 409 && HttpStatus(PermissionDenied) == 403
    ensures HttpStatus(Unauthenticated) == 401 && HttpStatus(ResourceExhausted) == 403
    ensures HttpStatus(FailedPrecondition) == 412 && HttpStatus(Aborted) == 409
    ensures HttpStatus(OutOfRange) == 400 && HttpStatus(Unimplemented) == 501
    ensures HttpStatus(Internal) == 500 && HttpStatus(Unavailable) == 503
    ensures HttpStatus(DataLoss) == 500
  {
  }

  /** Only a string outside the enum reaches the `return 0` branch. */
  lemma StatusZeroOnlyOutsideEnum(s: string)
    ensures ServerHTTPStatusFromErrorCode(s) == 0 <==> forall c :: Wire(c) != s
  {
  }

  /** The status does not determine the code. */
  lemma StatusNotInjective()
    ensures Canceled != DeadlineExceeded && HttpStatus(Canceled) == HttpStatus(DeadlineExceeded) == 408
  {
  }

  /** isValidErrorCode: the status is nonzero exactly for the enum's strings. */
  function IsValidErrorCode(code: string): (valid: bool)
    ensures valid <==> exists c :: Wire(c) == code
  {
    StatusZeroOnlyOutsideEnum(code);
    ServerHTTPStatusFromErrorCode(code) != 0
  }

  /** A Twirp error: a code and a free-text message. Its `name` is the code's
      wire string and its HTTP status follows from the code. */
  datatype TwirpError = TwirpError(code: ErrorCode, message: string)
  {
    function Name(): string { Wire(code) }
    function Status(): int { HttpStatus(code) }
  }

  /** What a `throw`, a rejected promise or a stream 'error' event carries:
      a Twirp error, any other `Error` (of which only the message is used), or
      a value that is not an object at all (`throw "x"`). */
  datatype Thrown = Twirp(error: TwirpError) | Plain(message: string) | Primitive

  /** class NotFoundError */
  function NotFoundError(message: string): (e: TwirpError)
    ensures e.Name() == "not_found" && e.message == message && e.Status() == 404
  {
    TwirpError(NotFound, message)
  }

  /** class InvalidArgumentError */
  function InvalidArgumentError(message: string): (e: TwirpError)
    ensures e.Name() == "invalid_argument" && e.message == message && e.Status() == 400
  {
    TwirpError(InvalidArgument, message)
  }

  /** class RequiredArgumentError: an invalid_argument error naming the argument. */
  function RequiredArgumentError(argument: string): (e: TwirpError)
    ensures e.Name() == "invalid_argument" && e.Status() == 400
    ensures e.message == argument + " is required"
  {
    TwirpError(InvalidArgument, argument + " is required")
  }

  /** class InternalServerError */
  function InternalServerError(message: string): (e: TwirpError)
    ensures e.Name() == "internal" && e.message == message && e.Status() == 500
  {
    TwirpError(Internal, message)
  }

  /** class BadRouteError */
  function BadRouteError(message: string): (e: TwirpError)
    ensures e.Name() == "bad_route" && e.message == message && e.Status() == 404
  {
    TwirpError(BadRoute, message)
  }

  /** The statuses that have a `case` label in twirpErrorFromIntermediary. */
  const IntermediaryCaseLabels: set<int> := {400, 401, 403, 404, 429, 502, 503, 504}

  /** What twirpErrorFromIntermediary returns: with no `break` in its switch,
      every status outside 300..399 falls through to `default`. */
  function IntermediaryOutcome(status: int): ErrorCode
  {
    if 300 <= status <= 399 then Internal else Unknown
  }

  /** twirpErrorFromIntermediary. Control enters the switch at the first
      matching label and then runs every later assignment, `default` included.
      `msg` and `bodyOrLocation` do not influence the result. */
  method TwirpErrorFromIntermediary(status: int, msg: string, bodyOrLocation: string) returns (code: ErrorCode)
    ensures code == IntermediaryOutcome(status)
    ensures 300 <= status <= 399 ==> code == Internal
    ensures !(300 <= status <= 399) ==> code == Unknown
  {
    code := Unknown;
    if 300 <= status && status <= 399 {
      code := Internal;
    } else {
      var entry :=
        if status == 400 then 0
        else if status == 401 then 1
        else if status == 403 then 2
        else if status == 404 then 3
        else if status == 429 || status == 502 || status == 503 || status == 504 then 4
        else 5;
      if entry <= 0 { code := Internal; }
      if entry <= 1 { code := Unauthenticated; }
      if entry <= 2 { code := PermissionDenied; }
      if entry <= 3 { code := BadRoute; }
      if entry <= 4 { code := Unavailable; }
      code := Unknown;
    }
  }

  /** The table the switch would compute if each `case` ended with `break`
      (the comments beside the labels only name the HTTP statuses). It is not
      what the function computes. */
  ghost function BreakPerCaseIntermediaryCode(status: int): ErrorCode
  {
    if 300 <= status <= 399 then Internal
    else if status == 400 then Internal
    else if status == 401 then Unauthenticated
    else if status == 403 then PermissionDenied
    else if status == 404 then BadRoute
    else if status in {429, 502, 503, 504} then Unavailable
    else Unknown
  }

  /** The fall-through result departs from the break-per-case table at exactly the
      statuses that carry a `case` label. */
  lemma IntermediaryFallThroughGap(status: int)
    ensures IntermediaryOutcome(status) != BreakPerCaseIntermediaryCode(status) <==> status in IntermediaryCaseLabels
    ensures status in IntermediaryCaseLabels ==> IntermediaryOutcome(status) == Unknown
  {
  }
}
