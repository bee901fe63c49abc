/**
  The slice of the HTTP envelope the operation bindings touch: request
  headers read through a typed accessor, and a response made of headers and
  an XML event body. Header names are the lower-case canonical forms.
*/
module Http {
  import opened Wrappers
  import opened Xml

  /** A raw request header: text the accessor can read, or a value it cannot. */
  datatype HeaderValue = Readable(text: string) | Unreadable

  /** The request envelope as the extractors see it. */
  datatype RequestEnvelope = RequestEnvelope(headers: map<string, HeaderValue>)

  /** What an optional-header accessor finds under one name. */
  datatype HeaderInput = Absent | Present(value: string) | Malformed

  /** The error `extract` reports when a header it reads is malformed. */
  datatype ExtractError = InvalidHeader(name: string)

  /** A response: headers and an XML body (empty when the operation has none). */
  datatype Response = Response(headers: map<string, string>, body: seq<Event>)

  const RequestPayerHeader: string := "x-amz-request-payer"
  const LocationHeader: string := "location"

  function HeaderOf(req: RequestEnvelope, name: string): HeaderInput
  {
    if name !in req.headers then Absent
    else match req.headers[name]
      case Readable(t) => Present(t)
      case Unreadable => Malformed
  }

  /**
    `assign_from_optional_header`: a present header replaces `field`, an absent
    one leaves it as it was, a malformed one aborts with an error.
  */
  function AssignFromOptionalHeader(name: string, h: HeaderInput, field: Option<string>): Result<Option<string>, ExtractError>
  {
    match h
    case Absent => Success(field)
    case Present(v) => Success(Some(v))
    case Malformed => Failure(InvalidHeader(name))
  }

  /** `set_opt_header`: writes `name` only when `v` is present. */
  function SetOptHeader(headers: map<string, string>, name: string, v: Option<string>): map<string, string>
  {
    match v
    case None => headers
    case Some(t) => headers[name := t]
  }
}
