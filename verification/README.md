# S3 operation bindings: CreateBucket, ListBuckets, ListObjectsV2

A Dafny model of the per-operation protocol binding of an S3-compatible
server for three operations. Each operation has up to three pure pieces:

- `extract` builds the typed request from the bucket path segment, an
  already-parsed query and at most one optional header;
- the output serialiser turns the optional fields of the output into an
  ordered, nested XML element stream or into a response header;
- the error serialiser maps each error variant to one fixed S3 error code and
  carries the message through unchanged.

The XML writer is modelled as an event stream (`Xml.Event`: `Open`, `Text`,
`Close`), following the writer helpers' meanings:
- `stack` wraps a body in an open and a close tag;
- `opt_element` writes `[Open n, Text v, Close n]` or nothing;
- `opt_stack` writes a stack or nothing;
- loops concatenate the per-item writes in order.

Every serialiser has a partner reader (`Parse`, `ReadBucket`, `ReadContents`,
…), and the round-trip lemmas show what the reader recovers:
- The CreateBucket `Location` header reads back exactly.
- The ListBuckets document reads back exactly, bucket order included.
- The ListObjectsV2 document reads back only up to `Visible`. An empty
  contents list is written like an absent one, and a common prefix without a
  value writes nothing.
- As written, the ListObjectsV2 document also loses `key_count`, because
  `KeyCount` is rendered from `max_keys` (see Findings).

`Balanced` (every open tag closed, in LIFO order) and `Children` (the names of
the top-level elements) state the document's shape.

Modules:
- `Wrappers`: `Option`/`Result`.
- `Xml`: the writer and its shape lemmas.
- `XmlRead`: generic readers and their step lemmas.
- `Decimal`: `i64` and `bool` text with their parsers.
- `Http`: request headers and the response.
- `S3Errors`: the error codes and `XmlErrorResponse`.
- `Dto`: the request and output records.
- `CreateBucket`, `ListBuckets`, `ListObjectsV2`: the three operations.

## Model

| member | source | states |
|---|---|---|
| CreateBucket.Extract | src/ops/create_bucket.rs:7-13 | extraction always succeeds; `bucket` is the path segment verbatim and every other request field is unset |
| CreateBucket.ExtractIgnoresEnvelope | src/ops/create_bucket.rs:7-12 | the request envelope never influences the extracted request, which is the default request with only `bucket` set |
| CreateBucket.ExtractExample | src/ops/create_bucket.rs:7-13 | the path segment "my-bucket" with an empty envelope gives the default request for bucket "my-bucket" |
| CreateBucket.Respond | src/ops/create_bucket.rs:15-22 | no body; the only header that can appear is `Location`; it appears exactly when `location` is present and then carries it unchanged |
| CreateBucket.RespondRoundTrip | src/ops/create_bucket.rs:15-22 | a client reading the `Location` header gets the output back exactly |
| CreateBucket.ErrorResponse | src/ops/create_bucket.rs:24-36 | `BucketAlreadyExists` and `BucketAlreadyOwnedByYou` map to the codes of the same name; the message is carried unchanged |
| CreateBucket.ErrorRoundTrip | src/ops/create_bucket.rs:26-33 | the variant and the message are both recoverable from the error response |
| CreateBucket.ErrorCodesClosed | src/ops/create_bucket.rs:26-33 | every variant reports one of the two documented codes, and two errors share a code exactly when they are the same variant |
| CreateBucket.CodeIgnoresMessage | src/ops/create_bucket.rs:26-33 | replacing the message changes the response's message and never its code |
| ListBuckets.Extract | src/ops/list_buckets.rs:11-13 | extraction never fails |
| ListBuckets.Respond | src/ops/list_buckets.rs:15-39 | no header; the body is one `ListBucketsOutput` document that a reader parses back to the output exactly |
| ListBuckets.Structure | src/ops/list_buckets.rs:18-37 | the body is balanced with a single root, whose children are `Buckets` then `Owner`, each only when present |
| ListBuckets.RoundTrip | src/ops/list_buckets.rs:18-37 | parsing the document recovers every field, including the order of the buckets |
| ListBuckets.BucketsRoundTrip | src/ops/list_buckets.rs:20-28 | the `Buckets` wrapper reads back as the same optional list; an absent list writes no wrapper |
| ListBuckets.BucketListRoundTrip | src/ops/list_buckets.rs:21-26 | one `Bucket` element per item reads back as the same items in the same order, none dropped |
| ListBuckets.BucketsStructure | src/ops/list_buckets.rs:21-26 | the bucket list is balanced and has exactly one `Bucket` child per item |
| ListBuckets.EmptyBucketsKept | src/ops/list_buckets.rs:20-28 | `Some([])` writes an empty `Buckets` element, and that document differs from the one for `None` |
| ListBuckets.BucketRoundTrip | src/ops/list_buckets.rs:22-25 | one `Bucket` element reads back as the same bucket |
| ListBuckets.BucketStructure | src/ops/list_buckets.rs:22-25 | a `Bucket` is balanced and holds `CreationDate` then `Name`, each only when present |
| ListBuckets.OwnerRoundTrip | src/ops/list_buckets.rs:30-33 | the optional `Owner` element reads back as the same optional owner |
| ListBuckets.PresentOwnerRoundTrip | src/ops/list_buckets.rs:30-33 | a present owner, written `DisplayName` before `ID`, reads back as itself |
| ListBuckets.OwnerStructure | src/ops/list_buckets.rs:30-33 | the owner body is balanced and holds `DisplayName` then `ID`, each only when present |
| ListBuckets.EmptyOutput | src/ops/list_buckets.rs:19-35 | with both fields absent the document is the bare root element |
| ListBuckets.OneBucketExample | src/ops/list_buckets.rs:19-35 | the exact event stream for one bucket that has a name and no creation date |
| ListObjectsV2.Extract | src/ops/list_objects_v2.rs:14-34 | fails exactly when the request-payer header is malformed; otherwise `bucket` and the seven query fields are copied unchanged, and `request_payer` is the header's value or unset when the header is absent |
| ListObjectsV2.ExtractKeepsQuery | src/ops/list_objects_v2.rs:19-29 | the query is recoverable from a successfully extracted request |
| ListObjectsV2.ExtractReadsOnlyPayerHeader | src/ops/list_objects_v2.rs:31-33 | two envelopes that agree on `x-amz-request-payer` give the same extraction result |
| ListObjectsV2.ExtractExample | src/ops/list_objects_v2.rs:14-34 | a query with a continuation token and `max_keys` 10 and no payer header gives a request carrying both and no payer |
| ListObjectsV2.ErrorResponse | src/ops/list_objects_v2.rs:36-45 | `NoSuchBucket(msg)` maps to code `NoSuchBucket` and carries `msg` unchanged |
| ListObjectsV2.ErrorRoundTrip | src/ops/list_objects_v2.rs:38-43 | the error is recoverable from its response, and the code does not depend on the message |
| ListObjectsV2.Respond | src/ops/list_objects_v2.rs:47-88 | no header; the body is one `ListBucketResult` document whose reading recovers every field the document can show, except that it reads `max_keys` as the key count |
| ListObjectsV2.Structure | src/ops/list_objects_v2.rs:51-84 | the body is balanced with a single root; its children follow the fixed order IsTruncated, Contents (one per item), Name, Prefix, Delimiter, MaxKeys, CommonPrefixes, EncodingType, KeyCount, ContinuationToken, NextContinuationToken, StartAfter, each only when present |
| ListObjectsV2.EmptyOutput | src/ops/list_objects_v2.rs:51-84 | with every rendered field absent the document is the bare root element |
| ListObjectsV2.RoundTripWith | src/ops/list_objects_v2.rs:51-84 | parsing the document recovers every visible field, with the value rendered as `KeyCount` as the key count |
| ListObjectsV2.SerializeWithInjective | src/ops/list_objects_v2.rs:51-84 | two outputs give the same document exactly when they agree on every visible field and on the rendered `KeyCount` |
| ListObjectsV2.VisibleIdempotent | src/ops/list_objects_v2.rs:53-77 | normalising an output to what the document can show is idempotent |
| ListObjectsV2.SerializeVisible | src/ops/list_objects_v2.rs:53-77 | the document depends on the output only through what it can show: an empty contents list and valueless common prefixes write nothing |
| ListObjectsV2.ContentsListRoundTrip | src/ops/list_objects_v2.rs:53-67 | one `Contents` element per object reads back as the same objects, in input order, none dropped |
| ListObjectsV2.ContentsListStructure | src/ops/list_objects_v2.rs:53-67 | the contents list is balanced and has one `Contents` child per object, and none when `contents` is absent |
| ListObjectsV2.ContentsRoundTrip | src/ops/list_objects_v2.rs:55-66 | one `Contents` element reads back as the same object |
| ListObjectsV2.ContentsStructure | src/ops/list_objects_v2.rs:55-66 | a `Contents` element is balanced and holds Key, LastModified, ETag, Size, StorageClass, Owner in that order, each only when present |
| ListObjectsV2.OwnerRoundTrip | src/ops/list_objects_v2.rs:61-65 | the optional owner of an object reads back as the same optional owner |
| ListObjectsV2.OwnerStructure | src/ops/list_objects_v2.rs:61-65 | an object's owner body is balanced and holds `ID` then `DisplayName`, the reverse of the ListBuckets owner |
| ListObjectsV2.CommonPrefixesRoundTrip | src/ops/list_objects_v2.rs:73-77 | the `CommonPrefixes` wrapper reads back as the list of prefixes that carry a value, in order; absent writes no wrapper |
| ListObjectsV2.PrefixListRoundTrip | src/ops/list_objects_v2.rs:74-76 | the `Prefix` elements read back as the valued prefixes in input order |
| ListObjectsV2.PrefixesStructure | src/ops/list_objects_v2.rs:74-76 | the prefix list is balanced with one `Prefix` child per valued prefix |
| ListObjectsV2.KeyCountMirrorsMaxKeys | src/ops/list_objects_v2.rs:72-79 | as written, the reader gets `max_keys` back both as `MaxKeys` and as `KeyCount`: each is present exactly when the other is, with the same value |
| ListObjectsV2.SerializeIgnoresKeyCount | src/ops/list_objects_v2.rs:79 | as written, the document does not depend on `key_count` at all |
| ListObjectsV2.KeyCountCounterexample | src/ops/list_objects_v2.rs:79 | a page of three keys requested with max-keys 1000 reports a key count of 1000 |
| ListObjectsV2.RespondIntended | src/ops/list_objects_v2.rs:47-88 | with `KeyCount` rendered from `key_count`, the response reads back as the output's visible fields exactly |
| ListObjectsV2.IntendedRoundTrip | src/ops/list_objects_v2.rs:79 | with `KeyCount` rendered from `key_count`, parsing recovers every visible field, and an already-normalised output exactly |
| ListObjectsV2.IntendedInjective | src/ops/list_objects_v2.rs:79 | with `KeyCount` rendered from `key_count`, two outputs share a document exactly when they show the same fields |
| Decimal.BoolTextRoundTrip | src/ops/list_objects_v2.rs:52 | the text written for `IsTruncated` reads back as the same boolean |
| Decimal.I64TextRoundTrip | src/ops/list_objects_v2.rs:59 | the decimal text written for a 64-bit size or key count reads back as the same integer |
| Decimal.IntTextInjective | src/ops/list_objects_v2.rs:72 | two integers with the same decimal text are equal |

## Left out

- `wrap_output`, the HTTP status, the `Response`/`Request` types and the 4096-byte capacity hint. They are transport plumbing whose code is not part of this model. A response is its headers plus its event body.
- The byte-level XML text, escaping and the writer in `crate::utils`. The writer is modelled only through its event semantics. So the writer's own `?` error paths, such as I/O failures, are not modelled, and every serialiser here returns a value.
- CreateBucket.Respond: always succeeds and always writes `location` into the header. In the source, `set_opt_header` can fail through its `?`, for example on a value that is not a legal header value, and then the whole response fails. Header-value validity belongs to the response type, which is not part of this model.
- The internals of `assign_from_optional_header` and header-value parsing. A header reaches `extract` as `Absent`, `Present(v)` or `Malformed`, looked up by its lower-case name.
- How an `XmlErrorResponse` becomes an error body, and the status/message table of `S3ErrorCode`. The model stops at the chosen code and the carried message.
- Parsing the query string into `GetQuery`. The typed query is taken as given.
- Date and time formatting of `last_modified` and `creation_date`. They are opaque strings.
- `ListBucketsError`: the source type has no values, so its serialiser can never run. A Dafny datatype needs a constructor, so the error type and its mapping are not declared.
- The request, output and error records come from the `dto` module, and `GetQuery` comes from `crate::query`; neither is part of this model. The field lists follow the AWS API shapes of the three operations:
  - `bool` for `is_truncated`, `fetch_owner` and `object_lock_enabled_for_bucket`;
  - `i64` for `size`, `max_keys` and `key_count`;
  - a nested record for the owner and the bucket configuration;
  - strings elsewhere.
- ListObjectsV2.RoundTripWith: recovers the output only up to `Visible`. The source writes an empty contents list exactly like an absent one, and writes nothing for a common prefix without a value, so those differences cannot be read back.

## Findings

| source | as written | input that shows it | evidently intended | confidence | as-written member | corrected member |
|---|---|---|---|---|---|---|
| src/ops/list_objects_v2.rs:79 | the `KeyCount` element is rendered from `max_keys` | an output with `key_count = 3` and `max_keys = 1000` produces `<KeyCount>1000</KeyCount>` | `KeyCount` carries `key_count`, the number of keys in the page | not executed | ListObjectsV2.KeyCountCounterexample | ListObjectsV2.RespondIntended |

The as-written rendering is kept in `ListObjectsV2.Serialize` and
`ListObjectsV2.Respond`. The corrected one is in
`ListObjectsV2.SerializeIntended` and `ListObjectsV2.RespondIntended`. The
code and the documented schema of the listing disagree on this one field,
and the model follows the code in `Respond`.
