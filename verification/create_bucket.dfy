/**
  CreateBucket: request extraction, the `Location` header response, and the
  mapping of the two documented domain errors to canonical codes.
*/
module CreateBucket {
  import opened Wrappers
  import opened Http
  import opened Dto
  import S3Errors

  /** The error codes a CreateBucket domain error can report. */
  const ErrorCodes: set<S3Errors.S3ErrorCode> := {S3Errors.BucketAlreadyExists, S3Errors.BucketAlreadyOwnedByYou}

  /** Builds the request from the bucket path segment; the envelope is not read. */
  function Extract(req: RequestEnvelope, bucket: string): (r: Result<CreateBucketRequest, ExtractError>)
    ensures r.Success?
    ensures r.value.bucket == bucket
    ensures r.value.acl.None? && r.value.create_bucket_configuration.None?
    ensures r.value.grant_full_control.None? && r.value.grant_read.None? && r.value.grant_read_acp.None?
    ensures r.value.grant_write.None? && r.value.grant_write_acp.None?
    ensures r.value.object_lock_enabled_for_bucket.None?
  {
    Success(DefaultCreateBucketRequest().(bucket := bucket))
  }

  /** The success response: at most a `Location` header, and no body. */
  function Respond(o: CreateBucketOutput): (r: Response)
    ensures r.body == []
    ensures r.headers.Keys <= {LocationHeader}
    ensures LocationHeader in r.headers <==> o.location.Some?
    ensures o.location.Some? ==> r.headers[LocationHeader] == o.location.value
  {
    Response(SetOptHeader(map[], LocationHeader, o.location), [])
  }

  /** The client's reading of a CreateBucket response. */
  function ReadResponse(r: Response): CreateBucketOutput
  {
    CreateBucketOutput(if LocationHeader in r.headers then Some(r.headers[LocationHeader]) else None)
  }

  /** The error response: the variant fixes the code, the message is carried unchanged. */
  function ErrorResponse(e: CreateBucketError): (r: S3Errors.XmlErrorResponse)
    ensures r.message == e.msg
    ensures e.BucketAlreadyExists? ==> r.code == S3Errors.BucketAlreadyExists
    ensures e.BucketAlreadyOwnedByYou? ==> r.code == S3Errors.BucketAlreadyOwnedByYou
  {
    match e
    case BucketAlreadyExists(msg) => S3Errors.FromCodeMsg(S3Errors.BucketAlreadyExists, msg)
    case BucketAlreadyOwnedByYou(msg) => S3Errors.FromCodeMsg(S3Errors.BucketAlreadyOwnedByYou, msg)
  }

  /** The domain error a CreateBucket error response stands for, if any. */
  function ErrorOf(r: S3Errors.XmlErrorResponse): Option<CreateBucketError>
  {
    match r.code
    case BucketAlreadyExists => Some(BucketAlreadyExists(r.message))
    case BucketAlreadyOwnedByYou => Some(BucketAlreadyOwnedByYou(r.message))
    case NoSuchBucket => None
  }

  /** The envelope does not influence the extracted request. */
  lemma ExtractIgnoresEnvelope(a: RequestEnvelope, b: RequestEnvelope, bucket: string)
    ensures Extract(a, bucket) == Extract(b, bucket)
    ensures Extract(a, bucket).value == DefaultCreateBucketRequest().(bucket := bucket)
  {
  }

  /** Reading the response back recovers the output exactly. */
  lemma RespondRoundTrip(o: CreateBucketOutput)
    ensures ReadResponse(Respond(o)) == o
  {
  }

  /** The error is recoverable from its response: the mapping loses neither the variant nor the message. */
  lemma ErrorRoundTrip(e: CreateBucketError)
    ensures ErrorOf(ErrorResponse(e)) == Some(e)
  {
  }

  /** Every variant reports a documented code, and two variants never share one. */
  lemma ErrorCodesClosed(e1: CreateBucketError, e2: CreateBucketError)
    ensures ErrorResponse(e1).code in ErrorCodes
    ensures ErrorResponse(e1).code == ErrorResponse(e2).code <==> e1.BucketAlreadyExists? == e2.BucketAlreadyExists?
  {
  }

  /** Changing only the message never changes the code. */
  lemma CodeIgnoresMessage(e: CreateBucketError, msg: string)
    ensures ErrorResponse(e.(msg := msg)).code == ErrorResponse(e).code
    ensures ErrorResponse(e.(msg := msg)).message == msg
  {
  }

  /** Extracting with the bucket path segment "my-bucket" and nothing else. */
  lemma ExtractExample()
    ensures Extract(RequestEnvelope(map[]), "my-bucket") == Success(DefaultCreateBucketRequest().(bucket := "my-bucket"))
  {
  }
}
