/**
  The canonical S3 error codes the three operations use, and the error
  response value an operation error is turned into (code plus message).
*/
module S3Errors {

  datatype S3ErrorCode = BucketAlreadyExists | BucketAlreadyOwnedByYou | NoSuchBucket

  /** `XmlErrorResponse` up to rendering: the chosen code and the carried message. */
  datatype XmlErrorResponse = XmlErrorResponse(code: S3ErrorCode, message: string)

  /** `XmlErrorResponse::from_code_msg`. */
  function FromCodeMsg(code: S3ErrorCode, msg: string): XmlErrorResponse
  {
    XmlErrorResponse(code, msg)
  }
}
