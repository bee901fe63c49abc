/**
  ListBuckets: the (empty) request and the `ListBucketsOutput` document. The
  operation's error type has no values, so there is no error mapping to model.
*/
module ListBuckets {
  import opened Wrappers
  import opened Xml
  import opened XmlRead
  import opened Http
  import opened Dto

  const Root: string := "ListBucketsOutput"

  /** The request carries nothing; extraction cannot fail. */
  function Extract(): (r: Result<ListBucketsRequest, ExtractError>)
    ensures r.Success?
  {
    Success(ListBucketsRequest)
  }

  // ---------------------------------------------------------------------------
  // Writer
  // ---------------------------------------------------------------------------

  function BucketElement(b: Bucket): seq<Event>
  {
    Stack("Bucket", OptElement("CreationDate", b.creation_date) + OptElement("Name", b.name))
  }

  function BucketsBody(bs: seq<Bucket>): seq<Event>
  {
    Each(bs, BucketElement)
  }

  /** Owner of the account: `DisplayName` before `ID`. */
  function OwnerBody(ow: Owner): seq<Event>
  {
    OptElement("DisplayName", ow.display_name) + OptElement("ID", ow.id)
  }

  function Body(o: ListBucketsOutput): seq<Event>
  {
    OptStack("Buckets", o.buckets, BucketsBody) + OptStack("Owner", o.owner, OwnerBody)
  }

  function Serialize(o: ListBucketsOutput): seq<Event>
  {
    Stack(Root, Body(o))
  }

  /** The success response: no header, a single-root body that reads back as `o`. */
  function Respond(o: ListBucketsOutput): (r: Response)
    ensures r.headers == map[]
    ensures IsDocument(r.body, Root)
    ensures Parse(r.body) == Some(o)
  {
    Structure(o);
    RoundTrip(o);
    Response(map[], Serialize(o))
  }

  // ---------------------------------------------------------------------------
  // Reader
  // ---------------------------------------------------------------------------

  function ReadBucket(evs: seq<Event>): (r: Option<Parsed<Bucket>>)
    ensures r.Some? ==> |r.value.rest| < |evs|
  {
    var t0 :- Expect(Open("Bucket"), evs);
    var creationDate :- ReadOpt("CreationDate", t0);
    var name :- ReadOpt("Name", creationDate.rest);
    var t1 :- Expect(Close("Bucket"), name.rest);
    Some(Parsed(Bucket(creationDate.value, name.value), t1))
  }

  function ReadBucketList(evs: seq<Event>): (r: Option<Parsed<seq<Bucket>>>)
    ensures r.Some? ==> |r.value.rest| <= |evs|
    decreases |evs|
  {
    if !Starts(evs, "Bucket") then Some(Parsed([], evs))
    else
      var b :- ReadBucket(evs);
      var bs :- ReadBucketList(b.rest);
      Some(Parsed([b.value] + bs.value, bs.rest))
  }

  function ReadBuckets(evs: seq<Event>): Option<Parsed<Option<seq<Bucket>>>>
  {
    if !Starts(evs, "Buckets") then Some(Parsed(None, evs))
    else
      var t0 := evs[1..];
      var bs :- ReadBucketList(t0);
      var t1 :- Expect(Close("Buckets"), bs.rest);
      Some(Parsed(Some(bs.value), t1))
  }

  function ReadOwner(evs: seq<Event>): Option<Parsed<Option<Owner>>>
  {
    if !Starts(evs, "Owner") then Some(Parsed(None, evs))
    else
      var t0 := evs[1..];
      var displayName :- ReadOpt("DisplayName", t0);
      var id :- ReadOpt("ID", displayName.rest);
      var t1 :- Expect(Close("Owner"), id.rest);
      Some(Parsed(Some(Owner(displayName.value, id.value)), t1))
  }

  /** A client's reading of a `ListBucketsOutput` document. */
  function Parse(evs: seq<Event>): Option<ListBucketsOutput>
  {
    var t0 :- Expect(Open(Root), evs);
    var buckets :- ReadBuckets(t0);
    var owner :- ReadOwner(buckets.rest);
    var t1 :- Expect(Close(Root), owner.rest);
    if t1 == [] then Some(ListBucketsOutput(buckets.value, owner.value)) else None
  }

  // ---------------------------------------------------------------------------
  // Properties
  // ---------------------------------------------------------------------------

  lemma BucketRoundTrip(b: Bucket, rest: seq<Event>)
    ensures ReadBucket(BucketElement(b) + rest) == Some(Parsed(b, rest))
  {
    var tail := [Close("Bucket")] + rest;
    var nameTail := OptElement("Name", b.name) + tail;
    var inner := OptElement("CreationDate", b.creation_date) + nameTail;
    assert BucketElement(b) + rest == [Open("Bucket")] + inner;
    ExpectFirst(Open("Bucket"), inner);
    ReadOptRoundTrip("CreationDate", b.creation_date, nameTail);
    ReadOptRoundTrip("Name", b.name, tail);
    ExpectFirst(Close("Bucket"), rest);
  }

  /** One `Bucket` element per item reads back as the same items, in the same order. */
  lemma {:induction false} BucketListRoundTrip(bs: seq<Bucket>, rest: seq<Event>)
    requires !Starts(rest, "Bucket")
    ensures ReadBucketList(BucketsBody(bs) + rest) == Some(Parsed(bs, rest))
    decreases |bs|
  {
    if bs == [] {
      assert BucketsBody(bs) + rest == rest;
    } else {
      var more := BucketsBody(bs[1..]) + rest;
      assert BucketsBody(bs) + rest == BucketElement(bs[0]) + more;
      BucketRoundTrip(bs[0], more);
      BucketListRoundTrip(bs[1..], rest);
      assert [bs[0]] + bs[1..] == bs;
    }
  }

  lemma BucketsRoundTrip(v: Option<seq<Bucket>>, rest: seq<Event>)
    requires !Starts(rest, "Buckets")
    ensures ReadBuckets(OptStack("Buckets", v, BucketsBody) + rest) == Some(Parsed(v, rest))
  {
    if v.Some? {
      var tail := [Close("Buckets")] + rest;
      var inner := BucketsBody(v.value) + tail;
      assert OptStack("Buckets", v, BucketsBody) + rest == [Open("Buckets")] + inner;
      assert ([Open("Buckets")] + inner)[1..] == inner;
      BucketListRoundTrip(v.value, tail);
      ExpectFirst(Close("Buckets"), rest);
    } else {
      assert OptStack("Buckets", v, BucketsBody) + rest == rest;
    }
  }

  lemma OwnerRoundTrip(v: Option<Owner>, rest: seq<Event>)
    requires !Starts(rest, "Owner")
    ensures ReadOwner(OptStack("Owner", v, OwnerBody) + rest) == Some(Parsed(v, rest))
  {
    if v.Some? {
      PresentOwnerRoundTrip(v.value, rest);
    } else {
      assert OptStack("Owner", v, OwnerBody) + rest == rest;
    }
  }

  lemma PresentOwnerRoundTrip(ow: Owner, rest: seq<Event>)
    ensures ReadOwner(Stack("Owner", OwnerBody(ow)) + rest) == Some(Parsed(Some(ow), rest))
  {
    var tail := [Close("Owner")] + rest;
    var idTail := OptElement("ID", ow.id) + tail;
    var inner := OptElement("DisplayName", ow.display_name) + idTail;
    var evs := Stack("Owner", OwnerBody(ow)) + rest;
    assert evs == [Open("Owner")] + inner;
    assert Starts(evs, "Owner") && evs[1..] == inner;
    ReadOptRoundTrip("DisplayName", ow.display_name, idTail);
    ReadOptRoundTrip("ID", ow.id, tail);
    ExpectFirst(Close("Owner"), rest);
  }

  /** Reading the document back recovers every field, including the order of the buckets. */
  lemma RoundTrip(o: ListBucketsOutput)
    ensures Parse(Serialize(o)) == Some(o)
  {
    var close := [Close(Root)];
    var ownerTail := OptStack("Owner", o.owner, OwnerBody) + close;
    var inner := OptStack("Buckets", o.buckets, BucketsBody) + ownerTail;
    assert Serialize(o) == [Open(Root)] + inner;
    ExpectFirst(Open(Root), inner);
    BucketsRoundTrip(o.buckets, ownerTail);
    OwnerRoundTrip(o.owner, close);
    ExpectFirst(Close(Root), []);
    assert close == close + [];
  }

  lemma BucketStructure(b: Bucket)
    ensures Balanced(BucketElement(b))
    ensures Children(BucketElement(b)) == ["Bucket"]
    ensures Children(Inner(BucketElement(b))) == IfPresent("CreationDate", b.creation_date) + IfPresent("Name", b.name)
  {
    var body := OptElement("CreationDate", b.creation_date) + OptElement("Name", b.name);
    BalancedOptElement("CreationDate", b.creation_date);
    BalancedOptElement("Name", b.name);
    BalancedAppend(OptElement("CreationDate", b.creation_date), OptElement("Name", b.name));
    BalancedStack("Bucket", body);
    ChildrenStack("Bucket", body);
    ChildrenAppend(OptElement("CreationDate", b.creation_date), OptElement("Name", b.name));
    ChildrenOptElement("CreationDate", b.creation_date);
    ChildrenOptElement("Name", b.name);
  }

  lemma OwnerStructure(ow: Owner)
    ensures Balanced(OwnerBody(ow))
    ensures Children(OwnerBody(ow)) == IfPresent("DisplayName", ow.display_name) + IfPresent("ID", ow.id)
  {
    BalancedOptElement("DisplayName", ow.display_name);
    BalancedOptElement("ID", ow.id);
    BalancedAppend(OptElement("DisplayName", ow.display_name), OptElement("ID", ow.id));
    ChildrenAppend(OptElement("DisplayName", ow.display_name), OptElement("ID", ow.id));
    ChildrenOptElement("DisplayName", ow.display_name);
    ChildrenOptElement("ID", ow.id);
  }

  lemma BucketsStructure(bs: seq<Bucket>)
    ensures Balanced(BucketsBody(bs))
    ensures Children(BucketsBody(bs)) == Repeat("Bucket", |bs|)
  {
    forall i | 0 <= i < |bs|
      ensures Balanced(BucketElement(bs[i])) && Children(BucketElement(bs[i])) == ["Bucket"]
    {
      BucketStructure(bs[i]);
    }
    BalancedEach(bs, BucketElement);
    ChildrenEach(bs, BucketElement, "Bucket");
  }

  /**
    The document is one `ListBucketsOutput` root with balanced tags, whose
    children are `Buckets` then `Owner`, each only when present.
  */
  lemma Structure(o: ListBucketsOutput)
    ensures IsDocument(Serialize(o), Root)
    ensures Balanced(Serialize(o)) && Children(Serialize(o)) == [Root]
    ensures Children(Inner(Serialize(o))) == IfPresent("Buckets", o.buckets) + IfPresent("Owner", o.owner)
  {
    if o.buckets.Some? {
      BucketsStructure(o.buckets.value);
    }
    if o.owner.Some? {
      OwnerStructure(o.owner.value);
    }
    BalancedOptStack("Buckets", o.buckets, BucketsBody);
    BalancedOptStack("Owner", o.owner, OwnerBody);
    BalancedAppend(OptStack("Buckets", o.buckets, BucketsBody), OptStack("Owner", o.owner, OwnerBody));
    BalancedStack(Root, Body(o));
    ChildrenStack(Root, Body(o));
    ChildrenAppend(OptStack("Buckets", o.buckets, BucketsBody), OptStack("Owner", o.owner, OwnerBody));
    ChildrenOptStack("Buckets", o.buckets, BucketsBody);
    ChildrenOptStack("Owner", o.owner, OwnerBody);
  }

  /** `Some([])` keeps an empty `Buckets` element, distinct from the document for `None`. */
  lemma EmptyBucketsKept(owner: Option<Owner>)
    ensures Children(Inner(Serialize(ListBucketsOutput(Some([]), owner)))) == ["Buckets"] + IfPresent("Owner", owner)
    ensures Serialize(ListBucketsOutput(Some([]), owner)) != Serialize(ListBucketsOutput(None, owner))
  {
    Structure(ListBucketsOutput(Some([]), owner));
    Structure(ListBucketsOutput(None, owner));
  }

  /** With every field absent the document is the bare root. */
  lemma EmptyOutput()
    ensures Serialize(ListBucketsOutput(None, None)) == [Open(Root), Close(Root)]
  {
  }

  /** One bucket named "b1" without a creation date. */
  lemma OneBucketExample()
    ensures Serialize(ListBucketsOutput(Some([Bucket(None, Some("b1"))]), None))
         == [Open(Root), Open("Buckets"), Open("Bucket"), Open("Name"), Text("b1"), Close("Name"),
             Close("Bucket"), Close("Buckets"), Close(Root)]
  {
    var bs := [Bucket(None, Some("b1"))];
    assert BucketsBody(bs) == BucketElement(bs[0]) + BucketsBody(bs[1..]);
    assert bs[1..] == [];
  }
}
