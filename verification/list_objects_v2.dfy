/**
  ListObjectsV2: request extraction from the bucket path segment, the typed
  query and the `x-amz-request-payer` header; the `ListBucketResult`
  document; and the `NoSuchBucket` error mapping.

  The serialiser writes the document's `KeyCount` element from `max_keys`.
  `SerializeWith` takes the value rendered as `KeyCount` as a parameter, so the
  structural properties are proved once for that rendering (`Serialize`) and
  for the one that renders `key_count` (`SerializeIntended`); `Respond` models
  the response as written and `RespondIntended` the corrected one.
*/
module ListObjectsV2 {
  import opened Wrappers
  import opened Xml
  import opened XmlRead
  import opened Decimal
  import opened Http
  import opened Dto
  import S3Errors

  const Root: string := "ListBucketResult"

  /** The error codes a ListObjectsV2 domain error can report. */
  const ErrorCodes: set<S3Errors.S3ErrorCode> := {S3Errors.NoSuchBucket}

  // ---------------------------------------------------------------------------
  // Request
  // ---------------------------------------------------------------------------

  /**
    Copies the path segment and the seven query fields, then reads the request
    payer from its header; a malformed header aborts with no request.
  */
  function Extract(req: RequestEnvelope, query: GetQuery, bucket: string): (r: Result<ListObjectsV2Request, ExtractError>)
    ensures r.Failure? <==> HeaderOf(req, RequestPayerHeader).Malformed?
    ensures r.Failure? ==> r.error == InvalidHeader(RequestPayerHeader)
    ensures r.Success? ==>
      && r.value.bucket == bucket
      && r.value.continuation_token == query.continuation_token
      && r.value.delimiter == query.delimiter
      && r.value.encoding_type == query.encoding_type
      && r.value.fetch_owner == query.fetch_owner
      && r.value.max_keys == query.max_keys
      && r.value.prefix == query.prefix
      && r.value.start_after == query.start_after
      && r.value.expected_bucket_owner.None?
    ensures r.Success? && HeaderOf(req, RequestPayerHeader).Present? ==>
      r.value.request_payer == Some(HeaderOf(req, RequestPayerHeader).value)
    ensures r.Success? && HeaderOf(req, RequestPayerHeader).Absent? ==> r.value.request_payer.None?
  {
    var input := DefaultListObjectsV2Request().(
      bucket := bucket,
      continuation_token := query.continuation_token,
      delimiter := query.delimiter,
      encoding_type := query.encoding_type,
      fetch_owner := query.fetch_owner,
      max_keys := query.max_keys,
      prefix := query.prefix,
      start_after := query.start_after);
    var payer :- AssignFromOptionalHeader(RequestPayerHeader, HeaderOf(req, RequestPayerHeader), input.request_payer);
    Success(input.(request_payer := payer))
  }

  /** The query fields a request was built from. */
  function QueryOf(r: ListObjectsV2Request): GetQuery
  {
    GetQuery(r.continuation_token, r.delimiter, r.encoding_type, r.fetch_owner, r.max_keys, r.prefix, r.start_after)
  }

  /** The extracted request gives back the query it was built from, unchanged. */
  lemma ExtractKeepsQuery(req: RequestEnvelope, query: GetQuery, bucket: string)
    requires Extract(req, query, bucket).Success?
    ensures QueryOf(Extract(req, query, bucket).value) == query
  {
  }

  /** Of the request's headers, only `x-amz-request-payer` matters. */
  lemma ExtractReadsOnlyPayerHeader(a: RequestEnvelope, b: RequestEnvelope, query: GetQuery, bucket: string)
    requires HeaderOf(a, RequestPayerHeader) == HeaderOf(b, RequestPayerHeader)
    ensures Extract(a, query, bucket) == Extract(b, query, bucket)
  {
  }

  /** Query `{continuation_token: "tok123", max_keys: 10}` and no request-payer header. */
  lemma ExtractExample(bucket: string)
    ensures
      var query := GetQuery(Some("tok123"), None, None, None, Some(10), None, None);
      var r := Extract(RequestEnvelope(map[]), query, bucket);
      && r.Success?
      && r.value.continuation_token == Some("tok123")
      && r.value.max_keys == Some(10)
      && r.value.request_payer == None
  {
  }

  // ---------------------------------------------------------------------------
  // Error
  // ---------------------------------------------------------------------------

  /** `NoSuchBucket(msg)` renders with the code `NoSuchBucket` and the message unchanged. */
  function ErrorResponse(e: ListObjectsV2Error): (r: S3Errors.XmlErrorResponse)
    ensures r.code == S3Errors.NoSuchBucket && r.code in ErrorCodes
    ensures r.message == e.msg
  {
    match e
    case NoSuchBucket(msg) => S3Errors.FromCodeMsg(S3Errors.NoSuchBucket, msg)
  }

  function ErrorOf(r: S3Errors.XmlErrorResponse): Option<ListObjectsV2Error>
  {
    if r.code == S3Errors.NoSuchBucket then Some(NoSuchBucket(r.message)) else None
  }

  /** The error is recoverable from its response, and the code does not depend on the message. */
  lemma ErrorRoundTrip(e: ListObjectsV2Error, other: string)
    ensures ErrorOf(ErrorResponse(e)) == Some(e)
    ensures ErrorResponse(NoSuchBucket(other)).code == ErrorResponse(e).code
  {
  }

  // ---------------------------------------------------------------------------
  // Writer
  // ---------------------------------------------------------------------------

  /** Owner of an object: `ID` before `DisplayName`. */
  function OwnerBody(ow: Owner): seq<Event>
  {
    OptElement("ID", ow.id) + OptElement("DisplayName", ow.display_name)
  }

  const ContentsOrder: seq<string> := ["Key", "LastModified", "ETag", "Size", "StorageClass", "Owner"]

  /** The writes inside one `Contents` element, in order. */
  function ContentsPieces(c: Object): seq<seq<Event>>
  {
    [ OptElement("Key", c.key),
      OptElement("LastModified", c.last_modified),
      OptElement("ETag", c.e_tag),
      OptElement("Size", MapOption(c.size, I64Text)),
      OptElement("StorageClass", c.storage_class),
      OptStack("Owner", c.owner, OwnerBody) ]
  }

  function ContentsElement(c: Object): seq<Event>
  {
    Stack("Contents", Concat(ContentsPieces(c)))
  }

  /** One `Contents` element per object; nothing at all when `contents` is `None`. */
  function ContentsList(contents: Option<seq<Object>>): seq<Event>
  {
    match contents
    case None => []
    case Some(cs) => Each(cs, ContentsElement)
  }

  function PrefixElement(cp: CommonPrefix): seq<Event>
  {
    OptElement("Prefix", cp.prefix)
  }

  function PrefixesBody(ps: seq<CommonPrefix>): seq<Event>
  {
    Each(ps, PrefixElement)
  }

  const TopOrder: seq<string> := [
    "IsTruncated", "Contents", "Name", "Prefix", "Delimiter", "MaxKeys",
    "CommonPrefixes", "EncodingType", "KeyCount", "ContinuationToken",
    "NextContinuationToken", "StartAfter"]

  /** The writes inside `ListBucketResult`, in order; `keyCount` is the value rendered as `KeyCount`. */
  function Pieces(o: ListObjectsV2Output, keyCount: Option<I64>): seq<seq<Event>>
  {
    [ OptElement("IsTruncated", MapOption(o.is_truncated, BoolText)),
      ContentsList(o.contents),
      OptElement("Name", o.name),
      OptElement("Prefix", o.prefix),
      OptElement("Delimiter", o.delimiter),
      OptElement("MaxKeys", MapOption(o.max_keys, I64Text)),
      OptStack("CommonPrefixes", o.common_prefixes, PrefixesBody),
      OptElement("EncodingType", o.encoding_type),
      OptElement("KeyCount", MapOption(keyCount, I64Text)),
      OptElement("ContinuationToken", o.continuation_token),
      OptElement("NextContinuationToken", o.next_continuation_token),
      OptElement("StartAfter", o.start_after) ]
  }

  function SerializeWith(o: ListObjectsV2Output, keyCount: Option<I64>): seq<Event>
  {
    Stack(Root, Concat(Pieces(o, keyCount)))
  }

  /** The document as the serialiser writes it: `KeyCount` carries `max_keys`. */
  function Serialize(o: ListObjectsV2Output): seq<Event>
  {
    SerializeWith(o, o.max_keys)
  }

  /** The document with `KeyCount` carrying `key_count`. */
  function SerializeIntended(o: ListObjectsV2Output): seq<Event>
  {
    SerializeWith(o, o.key_count)
  }

  /**
    The success response as written: no header, and a single-root body from
    which a reader recovers every field the document can show, except that
    the `KeyCount` it reads is `max_keys`.
  */
  function Respond(o: ListObjectsV2Output): (r: Response)
    ensures r.headers == map[]
    ensures IsDocument(r.body, Root)
    ensures Parse(r.body) == Some(Visible(o).(key_count := o.max_keys))
  {
    Structure(o, o.max_keys);
    RoundTripWith(o, o.max_keys);
    Response(map[], Serialize(o))
  }

  /** The success response with `KeyCount` rendered from `key_count`: every visible field reads back. */
  function RespondIntended(o: ListObjectsV2Output): (r: Response)
    ensures r.headers == map[]
    ensures IsDocument(r.body, Root)
    ensures Parse(r.body) == Some(Visible(o))
  {
    Structure(o, o.key_count);
    IntendedRoundTrip(o);
    Response(map[], SerializeIntended(o))
  }

  // ---------------------------------------------------------------------------
  // What a document can show
  // ---------------------------------------------------------------------------

  /** The common prefixes that write a `Prefix` element. */
  function KeptPrefixes(ps: seq<CommonPrefix>): seq<CommonPrefix>
    decreases |ps|
  {
    if ps == [] then []
    else (if ps[0].prefix.Some? then [ps[0]] else []) + KeptPrefixes(ps[1..])
  }

  /**
    `o` as far as its document can show it: an empty `contents` list writes
    nothing, exactly like `None`, and a common prefix without a value writes
    nothing inside `CommonPrefixes`.
  */
  function Visible(o: ListObjectsV2Output): ListObjectsV2Output
  {
    o.(contents := if o.contents == Some([]) then None else o.contents,
       common_prefixes := MapOption(o.common_prefixes, KeptPrefixes))
  }

  // ---------------------------------------------------------------------------
  // Reader
  // ---------------------------------------------------------------------------

  function ReadOwner(evs: seq<Event>): (r: Option<Parsed<Option<Owner>>>)
    ensures r.Some? ==> |r.value.rest| <= |evs|
  {
    if !Starts(evs, "Owner") then Some(Parsed(None, evs))
    else
      var t0 := evs[1..];
      var id :- ReadOpt("ID", t0);
      var displayName :- ReadOpt("DisplayName", id.rest);
      var t1 :- Expect(Close("Owner"), displayName.rest);
      Some(Parsed(Some(Owner(displayName.value, id.value)), t1))
  }

  function ReadContents(evs: seq<Event>): (r: Option<Parsed<Object>>)
    ensures r.Some? ==> |r.value.rest| < |evs|
  {
    var t0 :- Expect(Open("Contents"), evs);
    var key :- ReadOpt("Key", t0);
    var lastModified :- ReadOpt("LastModified", key.rest);
    var eTag :- ReadOpt("ETag", lastModified.rest);
    var size :- ReadOptAs("Size", eTag.rest, ParseI64);
    var storageClass :- ReadOpt("StorageClass", size.rest);
    var owner :- ReadOwner(storageClass.rest);
    var t1 :- Expect(Close("Contents"), owner.rest);
    Some(Parsed(Object(eTag.value, key.value, lastModified.value, owner.value, size.value, storageClass.value), t1))
  }

  function ReadContentsList(evs: seq<Event>): (r: Option<Parsed<seq<Object>>>)
    ensures r.Some? ==> |r.value.rest| <= |evs|
    decreases |evs|
  {
    if !Starts(evs, "Contents") then Some(Parsed([], evs))
    else
      var c :- ReadContents(evs);
      var cs :- ReadContentsList(c.rest);
      Some(Parsed([c.value] + cs.value, cs.rest))
  }

  function ReadPrefixList(evs: seq<Event>): (r: Option<Parsed<seq<CommonPrefix>>>)
    ensures r.Some? ==> |r.value.rest| <= |evs|
    decreases |evs|
  {
    if !Starts(evs, "Prefix") then Some(Parsed([], evs))
    else
      var p :- ReadOpt("Prefix", evs);
      var ps :- ReadPrefixList(p.rest);
      Some(Parsed([CommonPrefix(p.value)] + ps.value, ps.rest))
  }

  function ReadCommonPrefixes(evs: seq<Event>): Option<Parsed<Option<seq<CommonPrefix>>>>
  {
    if !Starts(evs, "CommonPrefixes") then Some(Parsed(None, evs))
    else
      var t0 := evs[1..];
      var ps :- ReadPrefixList(t0);
      var t1 :- Expect(Close("CommonPrefixes"), ps.rest);
      Some(Parsed(Some(ps.value), t1))
  }

  /** A client's reading of a `ListBucketResult` document. */
  function Parse(evs: seq<Event>): Option<ListObjectsV2Output>
  {
    var t0 :- Expect(Open(Root), evs);
    var front :- ReadFront(t0);
    var back :- ReadBack(front.rest, front.value);
    var t1 :- Expect(Close(Root), back.rest);
    if t1 != [] then None else Some(back.value)
  }

  /**
    Reads the root's first six children, `IsTruncated` to `MaxKeys`; the other
    fields are left absent. No `Contents` element reads as `None`.
  */
  function ReadFront(evs: seq<Event>): Option<Parsed<ListObjectsV2Output>>
  {
    var isTruncated :- ReadOptAs("IsTruncated", evs, ParseBool);
    var contents :- ReadContentsList(isTruncated.rest);
    var name :- ReadOpt("Name", contents.rest);
    var prefix :- ReadOpt("Prefix", name.rest);
    var delimiter :- ReadOpt("Delimiter", prefix.rest);
    var maxKeys :- ReadOptAs("MaxKeys", delimiter.rest, ParseI64);
    Some(Parsed(ListObjectsV2Output(
      common_prefixes := None,
      contents := if contents.value == [] then None else Some(contents.value),
      continuation_token := None,
      delimiter := delimiter.value,
      encoding_type := None,
      is_truncated := isTruncated.value,
      key_count := None,
      max_keys := maxKeys.value,
      name := name.value,
      next_continuation_token := None,
      prefix := prefix.value,
      start_after := None), maxKeys.rest))
  }

  /** Reads the root's last six children, `CommonPrefixes` to `StartAfter`, into `front`. */
  function ReadBack(evs: seq<Event>, front: ListObjectsV2Output): Option<Parsed<ListObjectsV2Output>>
  {
    var commonPrefixes :- ReadCommonPrefixes(evs);
    var encodingType :- ReadOpt("EncodingType", commonPrefixes.rest);
    var keyCount :- ReadOptAs("KeyCount", encodingType.rest, ParseI64);
    var token :- ReadOpt("ContinuationToken", keyCount.rest);
    var nextToken :- ReadOpt("NextContinuationToken", token.rest);
    var startAfter :- ReadOpt("StartAfter", nextToken.rest);
    Some(Parsed(front.(
      common_prefixes := commonPrefixes.value,
      encoding_type := encodingType.value,
      key_count := keyCount.value,
      continuation_token := token.value,
      next_continuation_token := nextToken.value,
      start_after := startAfter.value), startAfter.rest))
  }

  // ---------------------------------------------------------------------------
  // Structure: one root, balanced tags, children in the fixed order
  // ---------------------------------------------------------------------------

  function ContentsCount(contents: Option<seq<Object>>): nat
  {
    match contents
    case None => 0
    case Some(cs) => |cs|
  }

  /** How many elements each name of `ContentsOrder` has inside a `Contents` element. */
  function ContentsCounts(c: Object): seq<nat>
  {
    [Count(c.key), Count(c.last_modified), Count(c.e_tag), Count(c.size), Count(c.storage_class), Count(c.owner)]
  }

  /** How many elements each name of `TopOrder` has inside the root. */
  function TopCounts(o: ListObjectsV2Output, keyCount: Option<I64>): seq<nat>
  {
    [ Count(o.is_truncated), ContentsCount(o.contents), Count(o.name), Count(o.prefix),
      Count(o.delimiter), Count(o.max_keys), Count(o.common_prefixes), Count(o.encoding_type),
      Count(keyCount), Count(o.continuation_token), Count(o.next_continuation_token), Count(o.start_after) ]
  }

  lemma OwnerStructure(ow: Owner)
    ensures Balanced(OwnerBody(ow))
    ensures Children(OwnerBody(ow)) == IfPresent("ID", ow.id) + IfPresent("DisplayName", ow.display_name)
  {
    BalancedOptElement("ID", ow.id);
    BalancedOptElement("DisplayName", ow.display_name);
    BalancedAppend(OptElement("ID", ow.id), OptElement("DisplayName", ow.display_name));
    ChildrenAppend(OptElement("ID", ow.id), OptElement("DisplayName", ow.display_name));
    ChildrenOptElement("ID", ow.id);
    ChildrenOptElement("DisplayName", ow.display_name);
  }

  /** Write `i` inside `Contents` is balanced, fronted by its name, and holds that name `ContentsCounts(c)[i]` times. */
  lemma ContentsPiece(c: Object, i: nat)
    requires i < 6
    ensures Balanced(ContentsPieces(c)[i]) && Fronted(ContentsPieces(c)[i], ContentsOrder[i])
    ensures Children(ContentsPieces(c)[i]) == Repeat(ContentsOrder[i], ContentsCounts(c)[i])
  {
    var ps := ContentsPieces(c);
    if i == 0 {
      BalancedOptElement("Key", c.key);
      ChildrenOptElement("Key", c.key);
    } else if i == 1 {
      BalancedOptElement("LastModified", c.last_modified);
      ChildrenOptElement("LastModified", c.last_modified);
    } else if i == 2 {
      BalancedOptElement("ETag", c.e_tag);
      ChildrenOptElement("ETag", c.e_tag);
    } else if i == 3 {
      BalancedOptElement("Size", MapOption(c.size, I64Text));
      ChildrenOptElement("Size", MapOption(c.size, I64Text));
    } else if i == 4 {
      BalancedOptElement("StorageClass", c.storage_class);
      ChildrenOptElement("StorageClass", c.storage_class);
    } else {
      if c.owner.Some? {
        OwnerStructure(c.owner.value);
      }
      BalancedOptStack("Owner", c.owner, OwnerBody);
      ChildrenOptStack("Owner", c.owner, OwnerBody);
    }
  }

  lemma ContentsStructure(c: Object)
    ensures Balanced(ContentsElement(c))
    ensures Children(ContentsElement(c)) == ["Contents"]
    ensures Children(Inner(ContentsElement(c))) == Expand(ContentsOrder, ContentsCounts(c))
  {
    var ps := ContentsPieces(c);
    var counts := ContentsCounts(c);
    forall i | 0 <= i < |ps|
      ensures Balanced(ps[i]) && Children(ps[i]) == Repeat(ContentsOrder[i], counts[i])
    {
      ContentsPiece(c, i);
    }
    ChildrenConcat(ps, ContentsOrder, counts);
    BalancedStack("Contents", Concat(ps));
    ChildrenStack("Contents", Concat(ps));
  }

  lemma ContentsListStructure(contents: Option<seq<Object>>)
    ensures Balanced(ContentsList(contents))
    ensures Children(ContentsList(contents)) == Repeat("Contents", ContentsCount(contents))
  {
    if contents.Some? {
      var cs := contents.value;
      forall i | 0 <= i < |cs|
        ensures Balanced(ContentsElement(cs[i])) && Children(ContentsElement(cs[i])) == ["Contents"]
      {
        ContentsStructure(cs[i]);
      }
      BalancedEach(cs, ContentsElement);
      ChildrenEach(cs, ContentsElement, "Contents");
    } else {
      assert Check([], []) == Some([]);
    }
  }

  lemma PrefixesStructure(ps: seq<CommonPrefix>)
    ensures Balanced(PrefixesBody(ps))
    ensures Children(PrefixesBody(ps)) == Repeat("Prefix", |KeptPrefixes(ps)|)
  {
    forall i | 0 <= i < |ps|
      ensures Balanced(PrefixElement(ps[i]))
    {
      BalancedOptElement("Prefix", ps[i].prefix);
    }
    BalancedEach(ps, PrefixElement);
    PrefixesChildren(ps);
  }

  lemma {:induction false} PrefixesChildren(ps: seq<CommonPrefix>)
    ensures Children(PrefixesBody(ps)) == Repeat("Prefix", |KeptPrefixes(ps)|)
    decreases |ps|
  {
    if ps != [] {
      PrefixesChildren(ps[1..]);
      BalancedOptElement("Prefix", ps[0].prefix);
      ChildrenOptElement("Prefix", ps[0].prefix);
      ChildrenAppend(PrefixElement(ps[0]), PrefixesBody(ps[1..]));
      assert PrefixesBody(ps) == PrefixElement(ps[0]) + PrefixesBody(ps[1..]);
      assert Repeat("Prefix", Count(ps[0].prefix)) + Repeat("Prefix", |KeptPrefixes(ps[1..])|)
          == Repeat("Prefix", |KeptPrefixes(ps)|);
    }
  }

  /**
    `ps` are the writes inside the root for `o`, with `keyCount` written as
    `KeyCount`: write `i` is the optional element named `TopOrder[i]`.
  */
  predicate RootPieces(ps: seq<seq<Event>>, o: ListObjectsV2Output, keyCount: Option<I64>)
  {
    && |ps| == 12
    && ps[0] == OptElement(TopOrder[0], MapOption(o.is_truncated, BoolText))
    && ps[1] == ContentsList(o.contents)
    && ps[2] == OptElement(TopOrder[2], o.name)
    && ps[3] == OptElement(TopOrder[3], o.prefix)
    && ps[4] == OptElement(TopOrder[4], o.delimiter)
    && ps[5] == OptElement(TopOrder[5], MapOption(o.max_keys, I64Text))
    && ps[6] == OptStack("CommonPrefixes", o.common_prefixes, PrefixesBody)
    && ps[7] == OptElement(TopOrder[7], o.encoding_type)
    && ps[8] == OptElement(TopOrder[8], MapOption(keyCount, I64Text))
    && ps[9] == OptElement(TopOrder[9], o.continuation_token)
    && ps[10] == OptElement(TopOrder[10], o.next_continuation_token)
    && ps[11] == OptElement(TopOrder[11], o.start_after)
  }

  /** `counts[i]` is how many elements named `TopOrder[i]` the root of `o` holds, with `keyCount` written as `KeyCount`. */
  predicate RootCounts(counts: seq<nat>, o: ListObjectsV2Output, keyCount: Option<I64>)
  {
    && |counts| == 12
    && counts[0] == Count(o.is_truncated)
    && counts[1] == ContentsCount(o.contents)
    && counts[2] == Count(o.name)
    && counts[3] == Count(o.prefix)
    && counts[4] == Count(o.delimiter)
    && counts[5] == Count(o.max_keys)
    && counts[6] == Count(o.common_prefixes)
    && counts[7] == Count(o.encoding_type)
    && counts[8] == Count(keyCount)
    && counts[9] == Count(o.continuation_token)
    && counts[10] == Count(o.next_continuation_token)
    && counts[11] == Count(o.start_after)
  }

  lemma CountsShape(o: ListObjectsV2Output, keyCount: Option<I64>)
    ensures RootCounts(TopCounts(o, keyCount), o, keyCount)
  {
  }

  /** `Pieces` writes the children of `TopOrder`, in order. */
  lemma PiecesShape(o: ListObjectsV2Output, keyCount: Option<I64>)
    ensures RootPieces(Pieces(o, keyCount), o, keyCount)
  {
    PiecesShapeA(o, keyCount);
    PiecesShapeB(o, keyCount);
    PiecesShapeC(o, keyCount);
    PiecesShapeD(o, keyCount);
    PiecesShapeE(o, keyCount);
    PiecesShapeF(o, keyCount);
    TopOrderNames();
  }

  lemma PiecesShapeA(o: ListObjectsV2Output, keyCount: Option<I64>)
    ensures |Pieces(o, keyCount)| == 12
    ensures Pieces(o, keyCount)[0] == OptElement("IsTruncated", MapOption(o.is_truncated, BoolText))
    ensures Pieces(o, keyCount)[1] == ContentsList(o.contents)
  {
  }

  lemma PiecesShapeB(o: ListObjectsV2Output, keyCount: Option<I64>)
    ensures |Pieces(o, keyCount)| == 12
    ensures Pieces(o, keyCount)[2] == OptElement("Name", o.name)
    ensures Pieces(o, keyCount)[3] == OptElement("Prefix", o.prefix)
  {
  }

  lemma PiecesShapeC(o: ListObjectsV2Output, keyCount: Option<I64>)
    ensures |Pieces(o, keyCount)| == 12
    ensures Pieces(o, keyCount)[4] == OptElement("Delimiter", o.delimiter)
    ensures Pieces(o, keyCount)[5] == OptElement("MaxKeys", MapOption(o.max_keys, I64Text))
  {
  }

  lemma PiecesShapeD(o: ListObjectsV2Output, keyCount: Option<I64>)
    ensures |Pieces(o, keyCount)| == 12
    ensures Pieces(o, keyCount)[6] == OptStack("CommonPrefixes", o.common_prefixes, PrefixesBody)
    ensures Pieces(o, keyCount)[7] == OptElement("EncodingType", o.encoding_type)
  {
  }

  lemma PiecesShapeE(o: ListObjectsV2Output, keyCount: Option<I64>)
    ensures |Pieces(o, keyCount)| == 12
    ensures Pieces(o, keyCount)[8] == OptElement("KeyCount", MapOption(keyCount, I64Text))
    ensures Pieces(o, keyCount)[9] == OptElement("ContinuationToken", o.continuation_token)
  {
  }

  lemma PiecesShapeF(o: ListObjectsV2Output, keyCount: Option<I64>)
    ensures |Pieces(o, keyCount)| == 12
    ensures Pieces(o, keyCount)[10] == OptElement("NextContinuationToken", o.next_continuation_token)
    ensures Pieces(o, keyCount)[11] == OptElement("StartAfter", o.start_after)
  {
  }

  /** Write `i` inside the root is balanced, fronted by its name, and holds that name `counts[i]` times. */
  lemma TopPiece(ps: seq<seq<Event>>, counts: seq<nat>, o: ListObjectsV2Output, keyCount: Option<I64>, i: nat)
    requires RootPieces(ps, o, keyCount) && RootCounts(counts, o, keyCount) && i < 12
    ensures Balanced(ps[i]) && Fronted(ps[i], TopOrder[i])
    ensures Children(ps[i]) == Repeat(TopOrder[i], counts[i])
  {
    if i < 6 {
      TopPieceFront(ps, counts, o, keyCount, i);
    } else {
      TopPieceBack(ps, counts, o, keyCount, i);
    }
  }

  /** An optional text element is balanced, fronted by its name, and holds that name once when present. */
  lemma TextPiece(p: seq<Event>, n: string, v: Option<string>)
    requires p == OptElement(n, v)
    ensures Balanced(p) && Fronted(p, n) && Children(p) == Repeat(n, Count(v))
  {
    BalancedOptElement(n, v);
    ChildrenOptElement(n, v);
  }

  lemma ContentsListPiece(contents: Option<seq<Object>>)
    ensures Balanced(ContentsList(contents)) && Fronted(ContentsList(contents), "Contents")
    ensures Children(ContentsList(contents)) == Repeat("Contents", ContentsCount(contents))
  {
    ContentsListStructure(contents);
    var evs := ContentsList(contents);
    if contents.Some? && contents.value != [] {
      var cs := contents.value;
      assert evs == ContentsElement(cs[0]) + Each(cs[1..], ContentsElement);
    }
  }

  lemma TopPieceFront(ps: seq<seq<Event>>, counts: seq<nat>, o: ListObjectsV2Output, keyCount: Option<I64>, i: nat)
    requires RootPieces(ps, o, keyCount) && RootCounts(counts, o, keyCount) && i < 6
    ensures Balanced(ps[i]) && Fronted(ps[i], TopOrder[i])
    ensures Children(ps[i]) == Repeat(TopOrder[i], counts[i])
  {
    if i == 0 {
      TextPiece(ps[0], TopOrder[0], MapOption(o.is_truncated, BoolText));
    } else if i == 1 {
      assert TopOrder[1] == "Contents";
      ContentsListPiece(o.contents);
    } else if i == 2 {
      TextPiece(ps[2], TopOrder[2], o.name);
    } else if i == 3 {
      TextPiece(ps[3], TopOrder[3], o.prefix);
    } else if i == 4 {
      TextPiece(ps[4], TopOrder[4], o.delimiter);
    } else {
      TextPiece(ps[5], TopOrder[5], MapOption(o.max_keys, I64Text));
    }
  }

  lemma TopPieceBack(ps: seq<seq<Event>>, counts: seq<nat>, o: ListObjectsV2Output, keyCount: Option<I64>, i: nat)
    requires RootPieces(ps, o, keyCount) && RootCounts(counts, o, keyCount) && 6 <= i < 12
    ensures Balanced(ps[i]) && Fronted(ps[i], TopOrder[i])
    ensures Children(ps[i]) == Repeat(TopOrder[i], counts[i])
  {
    if i == 6 {
      if o.common_prefixes.Some? {
        PrefixesStructure(o.common_prefixes.value);
      }
      assert TopOrder[6] == "CommonPrefixes";
      BalancedOptStack("CommonPrefixes", o.common_prefixes, PrefixesBody);
      ChildrenOptStack("CommonPrefixes", o.common_prefixes, PrefixesBody);
    } else if i == 7 {
      TextPiece(ps[7], TopOrder[7], o.encoding_type);
    } else if i == 8 {
      TextPiece(ps[8], TopOrder[8], MapOption(keyCount, I64Text));
    } else if i == 9 {
      TextPiece(ps[9], TopOrder[9], o.continuation_token);
    } else if i == 10 {
      TextPiece(ps[10], TopOrder[10], o.next_continuation_token);
    } else {
      TextPiece(ps[11], TopOrder[11], o.start_after);
    }
  }

  /** Every write inside the root is empty or opens its own name first. */
  lemma RootFronted(ps: seq<seq<Event>>, o: ListObjectsV2Output, keyCount: Option<I64>)
    requires RootPieces(ps, o, keyCount)
    ensures AllFronted(ps, TopOrder)
  {
    CountsShape(o, keyCount);
    forall i | 0 <= i < 12
      ensures Fronted(ps[i], TopOrder[i])
    {
      TopPiece(ps, TopCounts(o, keyCount), o, keyCount, i);
    }
  }

  /**
    The document is one `ListBucketResult` root with balanced tags; its
    children follow `TopOrder`, each present exactly when its field is, with
    one `Contents` per object.
  */
  lemma Structure(o: ListObjectsV2Output, keyCount: Option<I64>)
    ensures IsDocument(SerializeWith(o, keyCount), Root)
    ensures Balanced(SerializeWith(o, keyCount)) && Children(SerializeWith(o, keyCount)) == [Root]
    ensures Children(Inner(SerializeWith(o, keyCount))) == Expand(TopOrder, TopCounts(o, keyCount))
  {
    var ps := Pieces(o, keyCount);
    var counts := TopCounts(o, keyCount);
    PiecesShape(o, keyCount);
    CountsShape(o, keyCount);
    forall i | 0 <= i < |ps|
      ensures Balanced(ps[i]) && Children(ps[i]) == Repeat(TopOrder[i], counts[i])
    {
      TopPiece(ps, counts, o, keyCount, i);
    }
    ChildrenConcat(ps, TopOrder, counts);
    BalancedStack(Root, Concat(ps));
    ChildrenStack(Root, Concat(ps));
  }

  /** With every field absent the document is the bare root. */
  lemma EmptyOutput(keyCount: Option<I64>)
    ensures
      var o := ListObjectsV2Output(None, None, None, None, None, None, keyCount, None, None, None, None, None);
      Serialize(o) == [Open(Root), Close(Root)]
  {
    var o := ListObjectsV2Output(None, None, None, None, None, None, keyCount, None, None, None, None, None);
    var ps := Pieces(o, o.max_keys);
    assert forall i :: 0 <= i < |ps| ==> ps[i] == [];
    EmptyConcat(ps);
  }

  lemma {:induction false} EmptyConcat(ps: seq<seq<Event>>)
    requires forall i :: 0 <= i < |ps| ==> ps[i] == []
    ensures Concat(ps) == []
    decreases |ps|
  {
    if ps != [] {
      EmptyConcat(ps[1..]);
    }
  }

  // ---------------------------------------------------------------------------
  // Round trip: a reader recovers what the document shows
  // ---------------------------------------------------------------------------

  lemma OwnerRoundTrip(v: Option<Owner>, rest: seq<Event>)
    requires v.None? ==> !Starts(rest, "Owner")
    ensures ReadOwner(OptStack("Owner", v, OwnerBody) + rest) == Some(Parsed(v, rest))
  {
    if v.Some? {
      PresentOwnerRoundTrip(v.value, rest);
    } else {
      assert OptStack("Owner", v, OwnerBody) + rest == rest;
    }
  }

  lemma PresentOwnerRoundTrip(ow: Owner, rest: seq<Event>)
    ensures ReadOwner(Stack("Owner", OwnerBody(ow)) + rest) == Some(Parsed(Some(ow), rest))
  {
    var tail := [Close("Owner")] + rest;
    var nameTail := OptElement("DisplayName", ow.display_name) + tail;
    var inner := OptElement("ID", ow.id) + nameTail;
    var evs := Stack("Owner", OwnerBody(ow)) + rest;
    assert evs == [Open("Owner")] + inner;
    assert Starts(evs, "Owner") && evs[1..] == inner;
    ReadOptRoundTrip("ID", ow.id, nameTail);
    ReadOptRoundTrip("DisplayName", ow.display_name, tail);
    ExpectFirst(Close("Owner"), rest);
  }

  lemma ContentsFronted(c: Object)
    ensures AllFronted(ContentsPieces(c), ContentsOrder)
  {
    forall i | 0 <= i < 6
      ensures Fronted(ContentsPieces(c)[i], ContentsOrder[i])
    {
      ContentsPiece(c, i);
    }
  }

  /** `ReadContents` chains its readers: when each succeeds on what the previous one left, so does the whole. */
  lemma ReadContentsChain(e0: seq<Event>, e1: seq<Event>, e2: seq<Event>, e3: seq<Event>, e4: seq<Event>,
                          e5: seq<Event>, e6: seq<Event>, e7: seq<Event>, rest: seq<Event>, c: Object)
    requires Expect(Open("Contents"), e0) == Some(e1)
    requires ReadOpt("Key", e1) == Some(Parsed(c.key, e2))
    requires ReadOpt("LastModified", e2) == Some(Parsed(c.last_modified, e3))
    requires ReadOpt("ETag", e3) == Some(Parsed(c.e_tag, e4))
    requires ReadOptAs("Size", e4, ParseI64) == Some(Parsed(c.size, e5))
    requires ReadOpt("StorageClass", e5) == Some(Parsed(c.storage_class, e6))
    requires ReadOwner(e6) == Some(Parsed(c.owner, e7))
    requires Expect(Close("Contents"), e7) == Some(rest)
    ensures ReadContents(e0) == Some(Parsed(c, rest))
  {
  }

  /** Reading the optional integer write `k` by its name yields its value and leaves the writes after it. */
  lemma ReadI64Step(ps: seq<seq<Event>>, names: seq<string>, k: nat, after: seq<Event>, x: Option<I64>)
    requires AllFronted(ps, names) && Distinct(names) && k < |ps|
    requires |after| > 0 && after[0].Close?
    requires ps[k] == OptElement(names[k], MapOption(x, I64Text))
    ensures ReadOptAs(names[k], Tail(ps, k, after), ParseI64) == Some(Parsed(x, Tail(ps, k + 1, after)))
  {
    if x.Some? {
      I64TextRoundTrip(x.value);
    }
    ReadOptAsStep(ps, names, k, after, x, I64Text, ParseI64);
  }

  /** The readers of `Key`, `LastModified` and `ETag` inside `Contents`, each on what the previous one left. */
  lemma ContentsStepsA(c: Object, rest: seq<Event>)
    ensures
      var ps := ContentsPieces(c);
      var after := [Close("Contents")] + rest;
      && ReadOpt("Key", Tail(ps, 0, after)) == Some(Parsed(c.key, Tail(ps, 1, after)))
      && ReadOpt("LastModified", Tail(ps, 1, after)) == Some(Parsed(c.last_modified, Tail(ps, 2, after)))
      && ReadOpt("ETag", Tail(ps, 2, after)) == Some(Parsed(c.e_tag, Tail(ps, 3, after)))
  {
    var ps := ContentsPieces(c);
    var names := ContentsOrder;
    var after := [Close("Contents")] + rest;
    ContentsFronted(c);
    ContentsOrderDistinct();
    ReadOptStep(ps, names, 0, after, c.key);
    ReadOptStep(ps, names, 1, after, c.last_modified);
    ReadOptStep(ps, names, 2, after, c.e_tag);
  }

  /** The readers of `Size` and `StorageClass` inside `Contents`, each on what the previous one left. */
  lemma ContentsStepsB(c: Object, rest: seq<Event>)
    ensures
      var ps := ContentsPieces(c);
      var after := [Close("Contents")] + rest;
      && ReadOptAs("Size", Tail(ps, 3, after), ParseI64) == Some(Parsed(c.size, Tail(ps, 4, after)))
      && ReadOpt("StorageClass", Tail(ps, 4, after)) == Some(Parsed(c.storage_class, Tail(ps, 5, after)))
  {
    var ps := ContentsPieces(c);
    var names := ContentsOrder;
    var after := [Close("Contents")] + rest;
    ContentsFronted(c);
    ContentsOrderDistinct();
    ReadI64Step(ps, names, 3, after, c.size);
    ReadOptStep(ps, names, 4, after, c.storage_class);
  }

  lemma ContentsRoundTrip(c: Object, rest: seq<Event>)
    ensures ReadContents(ContentsElement(c) + rest) == Some(Parsed(c, rest))
  {
    var ps := ContentsPieces(c);
    var after := [Close("Contents")] + rest;
    StackTail(ps, "Contents", rest);
    ExpectFirst(Open("Contents"), Tail(ps, 0, after));
    ContentsStepsA(c, rest);
    ContentsStepsB(c, rest);
    ContentsOwnerStep(c, rest);
    ExpectFirst(Close("Contents"), rest);
    ReadContentsChain(ContentsElement(c) + rest, Tail(ps, 0, after), Tail(ps, 1, after), Tail(ps, 2, after),
                      Tail(ps, 3, after), Tail(ps, 4, after), Tail(ps, 5, after), after, rest, c);
  }

  /** The last write inside `Contents`, the owner, reads back and leaves the closing tag. */
  lemma ContentsOwnerStep(c: Object, rest: seq<Event>)
    ensures
      var ps := ContentsPieces(c);
      var after := [Close("Contents")] + rest;
      ReadOwner(Tail(ps, 5, after)) == Some(Parsed(c.owner, after))
  {
    var ps := ContentsPieces(c);
    var after := [Close("Contents")] + rest;
    ContentsFronted(c);
    ContentsOrderDistinct();
    TailStep(ps, ContentsOrder, 5, after);
    TailEnd(ps, after);
    OwnerRoundTrip(c.owner, after);
  }

  /** A `Contents` element opens the stream and reads back as its object. */
  lemma ContentsHead(c: Object, rest: seq<Event>)
    ensures Starts(ContentsElement(c) + rest, "Contents")
    ensures ReadContents(ContentsElement(c) + rest) == Some(Parsed(c, rest))
  {
    ContentsRoundTrip(c, rest);
  }

  /** `ReadContentsList` on a stream that opens a `Contents` element: one object, then the rest of the list. */
  lemma ReadContentsListCons(e0: seq<Event>, e1: seq<Event>, e2: seq<Event>, c: Object, cs: seq<Object>)
    requires Starts(e0, "Contents")
    requires ReadContents(e0) == Some(Parsed(c, e1))
    requires ReadContentsList(e1) == Some(Parsed(cs, e2))
    ensures ReadContentsList(e0) == Some(Parsed([c] + cs, e2))
  {
  }

  /** One `Contents` element per object reads back as the same objects, in the same order. */
  lemma {:induction false} ContentsListRoundTrip(cs: seq<Object>, rest: seq<Event>)
    requires !Starts(rest, "Contents")
    ensures ReadContentsList(Each(cs, ContentsElement) + rest) == Some(Parsed(cs, rest))
    decreases |cs|
  {
    if cs == [] {
      assert Each(cs, ContentsElement) + rest == rest;
    } else {
      var more := Each(cs[1..], ContentsElement) + rest;
      var evs := ContentsElement(cs[0]) + more;
      assert Each(cs, ContentsElement) + rest == evs;
      ContentsHead(cs[0], more);
      ContentsListRoundTrip(cs[1..], rest);
      ReadContentsListCons(evs, more, rest, cs[0], cs[1..]);
      assert [cs[0]] + cs[1..] == cs;
    }
  }

  /** The `Prefix` elements read back as the common prefixes that have a value, in order. */
  lemma {:induction false} PrefixListRoundTrip(ps: seq<CommonPrefix>, rest: seq<Event>)
    requires !Starts(rest, "Prefix")
    ensures ReadPrefixList(PrefixesBody(ps) + rest) == Some(Parsed(KeptPrefixes(ps), rest))
    decreases |ps|
  {
    if ps == [] {
      assert PrefixesBody(ps) + rest == rest;
    } else {
      var more := PrefixesBody(ps[1..]) + rest;
      assert PrefixesBody(ps) + rest == PrefixElement(ps[0]) + more;
      PrefixListRoundTrip(ps[1..], rest);
      if ps[0].prefix.Some? {
        ReadOptRoundTrip("Prefix", ps[0].prefix, more);
        assert KeptPrefixes(ps) == [ps[0]] + KeptPrefixes(ps[1..]);
      } else {
        assert PrefixElement(ps[0]) + more == more;
        assert KeptPrefixes(ps) == [] + KeptPrefixes(ps[1..]) == KeptPrefixes(ps[1..]);
      }
    }
  }

  lemma CommonPrefixesRoundTrip(v: Option<seq<CommonPrefix>>, rest: seq<Event>)
    requires v.None? ==> !Starts(rest, "CommonPrefixes")
    ensures ReadCommonPrefixes(OptStack("CommonPrefixes", v, PrefixesBody) + rest)
         == Some(Parsed(MapOption(v, KeptPrefixes), rest))
  {
    if v.Some? {
      var tail := [Close("CommonPrefixes")] + rest;
      var inner := PrefixesBody(v.value) + tail;
      assert OptStack("CommonPrefixes", v, PrefixesBody) + rest == [Open("CommonPrefixes")] + inner;
      assert ([Open("CommonPrefixes")] + inner)[1..] == inner;
      PrefixListRoundTrip(v.value, tail);
      ExpectFirst(Close("CommonPrefixes"), rest);
    } else {
      assert OptStack("CommonPrefixes", v, PrefixesBody) + rest == rest;
    }
  }

  /** The root's child names, by position. */
  lemma TopOrderNames()
    ensures TopOrder[0] == "IsTruncated"
    ensures TopOrder[1] == "Contents"
    ensures TopOrder[2] == "Name"
    ensures TopOrder[3] == "Prefix"
    ensures TopOrder[4] == "Delimiter"
    ensures TopOrder[5] == "MaxKeys"
    ensures TopOrder[6] == "CommonPrefixes"
    ensures TopOrder[7] == "EncodingType"
    ensures TopOrder[8] == "KeyCount"
    ensures TopOrder[9] == "ContinuationToken"
    ensures TopOrder[10] == "NextContinuationToken"
    ensures TopOrder[11] == "StartAfter"
  {
  }

  lemma TopOrderDistinct()
    ensures Distinct(TopOrder)
  {
  }

  lemma ContentsOrderDistinct()
    ensures Distinct(ContentsOrder)
  {
  }

  /** Reading root child `k` leaves the children after it, which do not open its name. */
  lemma RootTail(ps: seq<seq<Event>>, k: nat)
    requires AllFronted(ps, TopOrder) && k < |ps|
    ensures Tail(ps, k, [Close(Root)]) == ps[k] + Tail(ps, k + 1, [Close(Root)])
    ensures !Starts(Tail(ps, k + 1, [Close(Root)]), TopOrder[k])
  {
    TopOrderDistinct();
    TailStep(ps, TopOrder, k, [Close(Root)]);
  }

  /** Root child `k`, an optional text element, reads back as its value. */
  lemma RootText(ps: seq<seq<Event>>, k: nat, v: Option<string>)
    requires AllFronted(ps, TopOrder) && k < |ps|
    requires ps[k] == OptElement(TopOrder[k], v)
    ensures ReadOpt(TopOrder[k], Tail(ps, k, [Close(Root)])) == Some(Parsed(v, Tail(ps, k + 1, [Close(Root)])))
  {
    TopOrderDistinct();
    ReadOptStep(ps, TopOrder, k, [Close(Root)], v);
  }

  /** Root child `k`, an optional integer element, reads back as its value. */
  lemma RootI64(ps: seq<seq<Event>>, k: nat, x: Option<I64>)
    requires AllFronted(ps, TopOrder) && k < |ps|
    requires ps[k] == OptElement(TopOrder[k], MapOption(x, I64Text))
    ensures ReadOptAs(TopOrder[k], Tail(ps, k, [Close(Root)]), ParseI64) == Some(Parsed(x, Tail(ps, k + 1, [Close(Root)])))
  {
    TopOrderDistinct();
    ReadI64Step(ps, TopOrder, k, [Close(Root)], x);
  }

  /** Root child `k`, an optional boolean element, reads back as its value. */
  lemma RootBool(ps: seq<seq<Event>>, k: nat, x: Option<bool>)
    requires AllFronted(ps, TopOrder) && k < |ps|
    requires ps[k] == OptElement(TopOrder[k], MapOption(x, BoolText))
    ensures ReadOptAs(TopOrder[k], Tail(ps, k, [Close(Root)]), ParseBool) == Some(Parsed(x, Tail(ps, k + 1, [Close(Root)])))
  {
    TopOrderDistinct();
    if x.Some? {
      BoolTextRoundTrip(x.value);
    }
    ReadOptAsStep(ps, TopOrder, k, [Close(Root)], x, BoolText, ParseBool);
  }

  /** The objects of `contents`, one `Contents` element each, read back as the same objects; none reads as `[]`. */
  lemma ContentsListRead(contents: Option<seq<Object>>, rest: seq<Event>)
    requires !Starts(rest, "Contents")
    ensures ReadContentsList(ContentsList(contents) + rest)
         == Some(Parsed(if contents.Some? then contents.value else [], rest))
  {
    if contents.Some? {
      ContentsListRoundTrip(contents.value, rest);
    } else {
      assert ContentsList(contents) + rest == rest;
    }
  }

  /** The `Contents` elements are the second write inside the root, and the writes after them do not open `Contents`. */
  lemma ContentsTail(ps: seq<seq<Event>>)
    requires AllFronted(ps, TopOrder) && |ps| == 12
    ensures Tail(ps, 1, [Close(Root)]) == ps[1] + Tail(ps, 2, [Close(Root)])
    ensures !Starts(Tail(ps, 2, [Close(Root)]), "Contents")
  {
    RootTail(ps, 1);
    assert TopOrder[1] == "Contents";
  }

  /** A stream made of the `Contents` elements and then `rest` reads back as the objects, leaving `rest`. */
  lemma ContentsStep(evs: seq<Event>, piece: seq<Event>, rest: seq<Event>, contents: Option<seq<Object>>)
    requires evs == piece + rest && piece == ContentsList(contents)
    requires !Starts(rest, "Contents")
    ensures ReadContentsList(evs) == Some(Parsed(if contents.Some? then contents.value else [], rest))
  {
    ContentsListRead(contents, rest);
  }

  /** The `CommonPrefixes` element, seventh inside the root, reads back as the prefixes with a value. */
  lemma CommonPrefixesStep(ps: seq<seq<Event>>, v: Option<seq<CommonPrefix>>)
    requires AllFronted(ps, TopOrder) && |ps| == 12
    requires ps[6] == OptStack("CommonPrefixes", v, PrefixesBody)
    ensures
      var after := [Close(Root)];
      ReadCommonPrefixes(Tail(ps, 6, after)) == Some(Parsed(MapOption(v, KeptPrefixes), Tail(ps, 7, after)))
  {
    RootTail(ps, 6);
    assert TopOrder[6] == "CommonPrefixes";
    CommonPrefixesRoundTrip(v, Tail(ps, 7, [Close(Root)]));
  }

  /** `ReadFront` chains its six readers: when each succeeds on what the previous one left, so does the whole. */
  lemma ReadFrontChain(e0: seq<Event>, e1: seq<Event>, e2: seq<Event>, e3: seq<Event>, e4: seq<Event>,
                       e5: seq<Event>, e6: seq<Event>, o: ListObjectsV2Output, cs: seq<Object>)
    requires ReadOptAs(TopOrder[0], e0, ParseBool) == Some(Parsed(o.is_truncated, e1))
    requires ReadContentsList(e1) == Some(Parsed(cs, e2))
    requires ReadOpt(TopOrder[2], e2) == Some(Parsed(o.name, e3))
    requires ReadOpt(TopOrder[3], e3) == Some(Parsed(o.prefix, e4))
    requires ReadOpt(TopOrder[4], e4) == Some(Parsed(o.delimiter, e5))
    requires ReadOptAs(TopOrder[5], e5, ParseI64) == Some(Parsed(o.max_keys, e6))
    ensures ReadFront(e0) == Some(Parsed(o.(
      common_prefixes := None, contents := if cs == [] then None else Some(cs),
      encoding_type := None, key_count := None, continuation_token := None,
      next_continuation_token := None, start_after := None), e6))
  {
    TopOrderNames();
  }

  /** `ReadBack` chains its six readers in the same way. */
  lemma ReadBackChain(e6: seq<Event>, e7: seq<Event>, e8: seq<Event>, e9: seq<Event>, e10: seq<Event>,
                      e11: seq<Event>, e12: seq<Event>, o: ListObjectsV2Output, front: ListObjectsV2Output)
    requires ReadCommonPrefixes(e6) == Some(Parsed(o.common_prefixes, e7))
    requires ReadOpt(TopOrder[7], e7) == Some(Parsed(o.encoding_type, e8))
    requires ReadOptAs(TopOrder[8], e8, ParseI64) == Some(Parsed(o.key_count, e9))
    requires ReadOpt(TopOrder[9], e9) == Some(Parsed(o.continuation_token, e10))
    requires ReadOpt(TopOrder[10], e10) == Some(Parsed(o.next_continuation_token, e11))
    requires ReadOpt(TopOrder[11], e11) == Some(Parsed(o.start_after, e12))
    ensures ReadBack(e6, front) == Some(Parsed(front.(
      common_prefixes := o.common_prefixes, encoding_type := o.encoding_type, key_count := o.key_count,
      continuation_token := o.continuation_token, next_continuation_token := o.next_continuation_token,
      start_after := o.start_after), e12))
  {
    TopOrderNames();
  }

  /** The reader of `IsTruncated`, first inside the root. */
  lemma FrontStepsA(ps: seq<seq<Event>>, o: ListObjectsV2Output, keyCount: Option<I64>)
    requires AllFronted(ps, TopOrder) && |ps| == 12
    requires ps[0] == OptElement(TopOrder[0], MapOption(o.is_truncated, BoolText))
    ensures ReadOptAs(TopOrder[0], Tail(ps, 0, [Close(Root)]), ParseBool) == Some(Parsed(o.is_truncated, Tail(ps, 1, [Close(Root)])))
  {
    RootBool(ps, 0, o.is_truncated);
  }

  /** The `Contents` elements, second inside the root, read back as the objects. */
  lemma ContentsChild(ps: seq<seq<Event>>, contents: Option<seq<Object>>)
    requires AllFronted(ps, TopOrder) && |ps| == 12
    requires ps[1] == ContentsList(contents)
    ensures ReadContentsList(Tail(ps, 1, [Close(Root)]))
         == Some(Parsed(if contents.Some? then contents.value else [], Tail(ps, 2, [Close(Root)])))
  {
    ContentsTail(ps);
    ContentsStep(Tail(ps, 1, [Close(Root)]), ps[1], Tail(ps, 2, [Close(Root)]), contents);
  }

  /** The readers of `Name` and `Prefix`, each on what the previous one left. */
  lemma FrontStepsB(ps: seq<seq<Event>>, o: ListObjectsV2Output, keyCount: Option<I64>)
    requires AllFronted(ps, TopOrder) && |ps| == 12
    requires ps[2] == OptElement(TopOrder[2], o.name)
    requires ps[3] == OptElement(TopOrder[3], o.prefix)
    ensures
      var after := [Close(Root)];
      && ReadOpt(TopOrder[2], Tail(ps, 2, after)) == Some(Parsed(o.name, Tail(ps, 3, after)))
      && ReadOpt(TopOrder[3], Tail(ps, 3, after)) == Some(Parsed(o.prefix, Tail(ps, 4, after)))
  {
    RootText(ps, 2, o.name);
    RootText(ps, 3, o.prefix);
  }

  /** The readers of `Delimiter` and `MaxKeys`, each on what the previous one left. */
  lemma FrontStepsC(ps: seq<seq<Event>>, o: ListObjectsV2Output, keyCount: Option<I64>)
    requires AllFronted(ps, TopOrder) && |ps| == 12
    requires ps[4] == OptElement(TopOrder[4], o.delimiter)
    requires ps[5] == OptElement(TopOrder[5], MapOption(o.max_keys, I64Text))
    ensures
      var after := [Close(Root)];
      && ReadOpt(TopOrder[4], Tail(ps, 4, after)) == Some(Parsed(o.delimiter, Tail(ps, 5, after)))
      && ReadOptAs(TopOrder[5], Tail(ps, 5, after), ParseI64) == Some(Parsed(o.max_keys, Tail(ps, 6, after)))
  {
    RootText(ps, 4, o.delimiter);
    RootI64(ps, 5, o.max_keys);
  }

  /** The readers of `CommonPrefixes`, `EncodingType` and `KeyCount`, each on what the previous one left. */
  lemma BackStepsA(ps: seq<seq<Event>>, o: ListObjectsV2Output, keyCount: Option<I64>)
    requires AllFronted(ps, TopOrder) && |ps| == 12
    requires ps[6] == OptStack("CommonPrefixes", o.common_prefixes, PrefixesBody)
    requires ps[7] == OptElement(TopOrder[7], o.encoding_type)
    requires ps[8] == OptElement(TopOrder[8], MapOption(keyCount, I64Text))
    ensures
      var after := [Close(Root)];
      && ReadCommonPrefixes(Tail(ps, 6, after)) == Some(Parsed(MapOption(o.common_prefixes, KeptPrefixes), Tail(ps, 7, after)))
      && ReadOpt(TopOrder[7], Tail(ps, 7, after)) == Some(Parsed(o.encoding_type, Tail(ps, 8, after)))
      && ReadOptAs(TopOrder[8], Tail(ps, 8, after), ParseI64) == Some(Parsed(keyCount, Tail(ps, 9, after)))
  {
    CommonPrefixesStep(ps, o.common_prefixes);
    RootText(ps, 7, o.encoding_type);
    RootI64(ps, 8, keyCount);
  }

  /** The readers of the last three children, each on what the previous one left, ending at the root's close. */
  lemma BackStepsB(ps: seq<seq<Event>>, o: ListObjectsV2Output, keyCount: Option<I64>)
    requires AllFronted(ps, TopOrder) && |ps| == 12
    requires ps[9] == OptElement(TopOrder[9], o.continuation_token)
    requires ps[10] == OptElement(TopOrder[10], o.next_continuation_token)
    requires ps[11] == OptElement(TopOrder[11], o.start_after)
    ensures
      var after := [Close(Root)];
      && ReadOpt(TopOrder[9], Tail(ps, 9, after)) == Some(Parsed(o.continuation_token, Tail(ps, 10, after)))
      && ReadOpt(TopOrder[10], Tail(ps, 10, after)) == Some(Parsed(o.next_continuation_token, Tail(ps, 11, after)))
      && ReadOpt(TopOrder[11], Tail(ps, 11, after)) == Some(Parsed(o.start_after, after))
  {
    RootText(ps, 9, o.continuation_token);
    RootText(ps, 10, o.next_continuation_token);
    RootText(ps, 11, o.start_after);
    TailEnd(ps, [Close(Root)]);
  }

  /** The first six children read back as the fields they show. */
  lemma FrontRoundTrip(ps: seq<seq<Event>>, o: ListObjectsV2Output, keyCount: Option<I64>)
    requires RootPieces(ps, o, keyCount)
    ensures
      var after := [Close(Root)];
      var cs := if o.contents.Some? then o.contents.value else [];
      ReadFront(Tail(ps, 0, after)) == Some(Parsed(o.(
        common_prefixes := None, contents := if cs == [] then None else Some(cs),
        encoding_type := None, key_count := None, continuation_token := None,
        next_continuation_token := None, start_after := None), Tail(ps, 6, after)))
  {
    var after := [Close(Root)];
    RootFronted(ps, o, keyCount);
    FrontStepsA(ps, o, keyCount);
    ContentsChild(ps, o.contents);
    FrontStepsB(ps, o, keyCount);
    FrontStepsC(ps, o, keyCount);
    ReadFrontChain(Tail(ps, 0, after), Tail(ps, 1, after), Tail(ps, 2, after), Tail(ps, 3, after),
                   Tail(ps, 4, after), Tail(ps, 5, after), Tail(ps, 6, after), o,
                   if o.contents.Some? then o.contents.value else []);
  }

  /** The last six children read back as the fields they show, rendering `keyCount` as the key count. */
  lemma BackRoundTrip(ps: seq<seq<Event>>, o: ListObjectsV2Output, keyCount: Option<I64>, front: ListObjectsV2Output)
    requires RootPieces(ps, o, keyCount)
    ensures
      var after := [Close(Root)];
      ReadBack(Tail(ps, 6, after), front) == Some(Parsed(front.(
        common_prefixes := MapOption(o.common_prefixes, KeptPrefixes),
        encoding_type := o.encoding_type,
        key_count := keyCount,
        continuation_token := o.continuation_token,
        next_continuation_token := o.next_continuation_token,
        start_after := o.start_after), after))
  {
    var after := [Close(Root)];
    RootFronted(ps, o, keyCount);
    BackStepsA(ps, o, keyCount);
    BackStepsB(ps, o, keyCount);
    ReadBackChain(Tail(ps, 6, after), Tail(ps, 7, after), Tail(ps, 8, after), Tail(ps, 9, after),
                  Tail(ps, 10, after), Tail(ps, 11, after), after,
                  o.(common_prefixes := MapOption(o.common_prefixes, KeptPrefixes), key_count := keyCount), front);
  }

  /**
    Reading the document back recovers every field it shows, with `keyCount`
    read back as the key count.
  */
  lemma RoundTripWith(o: ListObjectsV2Output, keyCount: Option<I64>)
    ensures Parse(SerializeWith(o, keyCount)) == Some(Visible(o).(key_count := keyCount))
  {
    var ps := Pieces(o, keyCount);
    var after := [Close(Root)];
    var evs := SerializeWith(o, keyCount);
    PiecesShape(o, keyCount);
    StackTail(ps, Root, []);
    assert evs == evs + [] && after == [Close(Root)] + [];
    assert evs == [Open(Root)] + Tail(ps, 0, after);
    ExpectFirst(Open(Root), Tail(ps, 0, after));
    assert Expect(Open(Root), evs) == Some(Tail(ps, 0, after));
    var cs := if o.contents.Some? then o.contents.value else [];
    var front := o.(
      common_prefixes := None, contents := if cs == [] then None else Some(cs),
      encoding_type := None, key_count := None, continuation_token := None,
      next_continuation_token := None, start_after := None);
    FrontRoundTrip(ps, o, keyCount);
    BackRoundTrip(ps, o, keyCount, front);
    var back := front.(
      common_prefixes := MapOption(o.common_prefixes, KeptPrefixes),
      encoding_type := o.encoding_type,
      key_count := keyCount,
      continuation_token := o.continuation_token,
      next_continuation_token := o.next_continuation_token,
      start_after := o.start_after);
    assert back == Visible(o).(key_count := keyCount);
    assert Expect(Close(Root), after) == Some([]);
  }

  // ---------------------------------------------------------------------------
  // What the document loses, and the `KeyCount` rendering
  // ---------------------------------------------------------------------------

  lemma {:induction false} KeptPrefixesIdempotent(ps: seq<CommonPrefix>)
    ensures KeptPrefixes(KeptPrefixes(ps)) == KeptPrefixes(ps)
    ensures forall i :: 0 <= i < |KeptPrefixes(ps)| ==> KeptPrefixes(ps)[i].prefix.Some?
    decreases |ps|
  {
    if ps != [] {
      KeptPrefixesIdempotent(ps[1..]);
      var rest := KeptPrefixes(ps[1..]);
      if ps[0].prefix.Some? {
        assert KeptPrefixes(ps) == [ps[0]] + rest;
        assert ([ps[0]] + rest)[1..] == rest;
      } else {
        assert KeptPrefixes(ps) == rest;
      }
    }
  }

  /** Normalising twice is normalising once. */
  lemma VisibleIdempotent(o: ListObjectsV2Output)
    ensures Visible(Visible(o)) == Visible(o)
  {
    if o.common_prefixes.Some? {
      KeptPrefixesIdempotent(o.common_prefixes.value);
    }
  }

  /** Dropping common prefixes without a value does not change the `Prefix` elements written. */
  lemma {:induction false} KeptPrefixesBody(ps: seq<CommonPrefix>)
    ensures PrefixesBody(KeptPrefixes(ps)) == PrefixesBody(ps)
    decreases |ps|
  {
    if ps != [] {
      KeptPrefixesBody(ps[1..]);
      var kept := KeptPrefixes(ps[1..]);
      assert PrefixesBody(ps) == PrefixElement(ps[0]) + PrefixesBody(ps[1..]);
      if ps[0].prefix.Some? {
        assert KeptPrefixes(ps) == [ps[0]] + kept;
        assert ([ps[0]] + kept)[1..] == kept;
        assert PrefixesBody([ps[0]] + kept) == PrefixElement(ps[0]) + PrefixesBody(kept);
      } else {
        assert KeptPrefixes(ps) == kept;
        assert PrefixElement(ps[0]) == [];
      }
    }
  }

  /** The document depends on the output only through what it can show. */
  lemma SerializeVisible(o: ListObjectsV2Output, keyCount: Option<I64>)
    ensures SerializeWith(Visible(o), keyCount) == SerializeWith(o, keyCount)
  {
    if o.common_prefixes.Some? {
      KeptPrefixesBody(o.common_prefixes.value);
    }
    assert Pieces(Visible(o), keyCount) == Pieces(o, keyCount);
  }

  /**
    Two outputs give the same document exactly when they show the same fields
    and render the same `KeyCount`.
  */
  lemma SerializeWithInjective(o1: ListObjectsV2Output, o2: ListObjectsV2Output, keyCount1: Option<I64>, keyCount2: Option<I64>)
    ensures SerializeWith(o1, keyCount1) == SerializeWith(o2, keyCount2)
        <==> Visible(o1).(key_count := keyCount1) == Visible(o2).(key_count := keyCount2)
  {
    RoundTripWith(o1, keyCount1);
    RoundTripWith(o2, keyCount2);
    if Visible(o1).(key_count := keyCount1) == Visible(o2).(key_count := keyCount2) {
      SerializeVisible(o1, keyCount1);
      SerializeVisible(o2, keyCount2);
      assert Visible(o1).(key_count := keyCount1).(key_count := o1.key_count) == Visible(o1);
      assert Visible(o2).(key_count := keyCount2).(key_count := o2.key_count) == Visible(o2);
      assert Pieces(Visible(o1), keyCount1) == Pieces(Visible(o2), keyCount2);
    }
  }

  /** As written, the `KeyCount` element repeats `MaxKeys`: a reader gets `max_keys` back as the key count. */
  lemma KeyCountMirrorsMaxKeys(o: ListObjectsV2Output)
    ensures Parse(Serialize(o)).Some?
    ensures Parse(Serialize(o)).value.key_count == o.max_keys
    ensures Parse(Serialize(o)).value.max_keys == o.max_keys
  {
    RoundTripWith(o, o.max_keys);
  }

  /** As written, the document does not depend on `key_count` at all. */
  lemma SerializeIgnoresKeyCount(o: ListObjectsV2Output, keyCount: Option<I64>)
    ensures Serialize(o.(key_count := keyCount)) == Serialize(o)
  {
    assert Pieces(o.(key_count := keyCount), o.max_keys) == Pieces(o, o.max_keys);
  }

  /**
    A page of three keys requested with `max-keys=1000`: the document as
    written reports a key count of 1000, not 3.
  */
  lemma KeyCountCounterexample()
    ensures
      var o := ListObjectsV2Output(None, None, None, None, None, Some(false), Some(3), Some(1000),
                                   Some("bucket"), None, None, None);
      && Parse(Serialize(o)).Some?
      && Parse(Serialize(o)).value.key_count == Some(1000)
      && Parse(Serialize(o)).value.key_count != o.key_count
  {
    var o := ListObjectsV2Output(None, None, None, None, None, Some(false), Some(3), Some(1000),
                                 Some("bucket"), None, None, None);
    KeyCountMirrorsMaxKeys(o);
  }

  /** With `KeyCount` rendered from `key_count`, a reader recovers every field the document can show. */
  lemma IntendedRoundTrip(o: ListObjectsV2Output)
    ensures Parse(SerializeIntended(o)) == Some(Visible(o))
    ensures Visible(o) == o ==> Parse(SerializeIntended(o)) == Some(o)
  {
    RoundTripWith(o, o.key_count);
    assert Visible(o).(key_count := o.key_count) == Visible(o);
  }

  /** With `KeyCount` rendered from `key_count`, two outputs share a document exactly when they show the same fields. */
  lemma IntendedInjective(o1: ListObjectsV2Output, o2: ListObjectsV2Output)
    ensures SerializeIntended(o1) == SerializeIntended(o2) <==> Visible(o1) == Visible(o2)
  {
    SerializeWithInjective(o1, o2, o1.key_count, o2.key_count);
    assert Visible(o1).(key_count := o1.key_count) == Visible(o1);
    assert Visible(o2).(key_count := o2.key_count) == Visible(o2);
  }
}
