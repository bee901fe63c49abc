/**
  The request, output and error values of CreateBucket, ListBuckets and
  ListObjectsV2. Field names follow the AWS API; every field the wire may omit
  is an `Option`.
*/
module Dto {
  import opened Wrappers
  import opened Decimal

  // CreateBucket -------------------------------------------------------------

  datatype CreateBucketConfiguration = CreateBucketConfiguration(location_constraint: Option<string>)

  datatype CreateBucketRequest = CreateBucketRequest(
    acl: Option<string>,
    bucket: string,
    create_bucket_configuration: Option<CreateBucketConfiguration>,
    grant_full_control: Option<string>,
    grant_read: Option<string>,
    grant_read_acp: Option<string>,
    grant_write: Option<string>,
    grant_write_acp: Option<string>,
    object_lock_enabled_for_bucket: Option<bool>)

  /** `CreateBucketRequest::default()`. */
  function DefaultCreateBucketRequest(): CreateBucketRequest
  {
    CreateBucketRequest(None, "", None, None, None, None, None, None, None)
  }

  datatype CreateBucketOutput = CreateBucketOutput(location: Option<string>)

  datatype CreateBucketError = BucketAlreadyExists(msg: string) | BucketAlreadyOwnedByYou(msg: string)

  // ListBuckets --------------------------------------------------------------

  datatype ListBucketsRequest = ListBucketsRequest

  datatype Bucket = Bucket(creation_date: Option<string>, name: Option<string>)

  datatype Owner = Owner(display_name: Option<string>, id: Option<string>)

  datatype ListBucketsOutput = ListBucketsOutput(buckets: Option<seq<Bucket>>, owner: Option<Owner>)

  // ListObjectsV2 ------------------------------------------------------------

  /** The already-parsed query parameters ListObjectsV2 reads. */
  datatype GetQuery = GetQuery(
    continuation_token: Option<string>,
    delimiter: Option<string>,
    encoding_type: Option<string>,
    fetch_owner: Option<bool>,
    max_keys: Option<I64>,
    prefix: Option<string>,
    start_after: Option<string>)

  datatype ListObjectsV2Request = ListObjectsV2Request(
    bucket: string,
    continuation_token: Option<string>,
    delimiter: Option<string>,
    encoding_type: Option<string>,
    expected_bucket_owner: Option<string>,
    fetch_owner: Option<bool>,
    max_keys: Option<I64>,
    prefix: Option<string>,
    request_payer: Option<string>,
    start_after: Option<string>)

  /** `ListObjectsV2Request::default()`. */
  function DefaultListObjectsV2Request(): ListObjectsV2Request
  {
    ListObjectsV2Request("", None, None, None, None, None, None, None, None, None)
  }

  datatype Object = Object(
    e_tag: Option<string>,
    key: Option<string>,
    last_modified: Option<string>,
    owner: Option<Owner>,
    size: Option<I64>,
    storage_class: Option<string>)

  datatype CommonPrefix = CommonPrefix(prefix: Option<string>)

  datatype ListObjectsV2Output = ListObjectsV2Output(
    common_prefixes: Option<seq<CommonPrefix>>,
    contents: Option<seq<Object>>,
    continuation_token: Option<string>,
    delimiter: Option<string>,
    encoding_type: Option<string>,
    is_truncated: Option<bool>,
    key_count: Option<I64>,
    max_keys: Option<I64>,
    name: Option<string>,
    next_continuation_token: Option<string>,
    prefix: Option<string>,
    start_after: Option<string>)

  datatype ListObjectsV2Error = NoSuchBucket(msg: string)
}
