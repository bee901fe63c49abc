/**
  Readers for the event streams the writer produces: the inverse of
  `OptElement`, `Stack` and a sequence of optional writes. An optional element
  is recognised by the name of the element that comes next, so a reader can
  only tell "absent" from "present" when the events after an omitted element
  do not open an element of the same name.
*/
module XmlRead {
  import opened Wrappers
  import opened Xml

  /** A value read from the front of a stream, and the events after it. */
  datatype Parsed<T> = Parsed(value: T, rest: seq<Event>)

  /** The stream opens an element named `n` first. */
  predicate Starts(evs: seq<Event>, n: string)
  {
    |evs| > 0 && evs[0] == Open(n)
  }

  /** A write that is empty or opens the element `n` first. */
  predicate Fronted(piece: seq<Event>, n: string)
  {
    piece == [] || piece[0] == Open(n)
  }

  /** Every write `pieces[i]` is fronted by `names[i]`. */
  predicate AllFronted(pieces: seq<seq<Event>>, names: seq<string>)
  {
    |pieces| == |names| && forall i :: 0 <= i < |pieces| ==> Fronted(pieces[i], names[i])
  }

  /** No name occurs twice. */
  predicate Distinct(names: seq<string>)
  {
    forall i, j :: 0 <= i < j < |names| ==> names[i] != names[j]
  }

  /** Consumes exactly the event `e`. */
  function Expect(e: Event, evs: seq<Event>): (r: Option<seq<Event>>)
    ensures r.Some? <==> |evs| > 0 && evs[0] == e
    ensures r.Some? ==> |r.value| < |evs|
  {
    if |evs| > 0 && evs[0] == e then Some(evs[1..]) else None
  }

  /** Reads an optional text element `n`: absent when the stream does not open `n` first. */
  function ReadOpt(n: string, evs: seq<Event>): (r: Option<Parsed<Option<string>>>)
    ensures !Starts(evs, n) ==> r == Some(Parsed(None, evs))
    ensures Starts(evs, n) && r.Some? ==> r.value.value.Some?
    ensures r.Some? ==> |r.value.rest| <= |evs|
    ensures r.Some? && r.value.value.Some? ==> |r.value.rest| < |evs|
  {
    if !Starts(evs, n) then Some(Parsed(None, evs))
    else if |evs| >= 3 && evs[1].Text? && evs[2] == Close(n) then Some(Parsed(Some(evs[1].text), evs[3..]))
    else None
  }

  /** Converts an optional text with `conv`; fails when present text does not convert. */
  function Decode<T>(v: Option<string>, conv: string -> Option<T>): Option<Option<T>>
  {
    match v
    case None => Some(None)
    case Some(t) => (match conv(t) case None => None case Some(x) => Some(Some(x)))
  }

  /** Reads an optional text element `n` and converts its text with `conv`. */
  function ReadOptAs<T>(n: string, evs: seq<Event>, conv: string -> Option<T>): (r: Option<Parsed<Option<T>>>)
    ensures r.Some? ==> |r.value.rest| <= |evs|
  {
    var p :- ReadOpt(n, evs);
    var v :- Decode(p.value, conv);
    Some(Parsed(v, p.rest))
  }

  /** The writes `pieces[k..]` followed by `after` (which starts with the parent's close). */
  function Tail(pieces: seq<seq<Event>>, k: nat, after: seq<Event>): seq<Event>
    requires k <= |pieces|
  {
    Concat(pieces[k..]) + after
  }

  lemma ExpectFirst(e: Event, rest: seq<Event>)
    ensures Expect(e, [e] + rest) == Some(rest)
  {
    assert ([e] + rest)[1..] == rest;
  }

  lemma ReadOptRoundTrip(n: string, v: Option<string>, rest: seq<Event>)
    requires v.None? ==> !Starts(rest, n)
    ensures ReadOpt(n, OptElement(n, v) + rest) == Some(Parsed(v, rest))
  {
    if v.Some? {
      var evs := OptElement(n, v) + rest;
      assert evs[..3] == [Open(n), Text(v.value), Close(n)];
      assert evs[3..] == rest;
    } else {
      assert OptElement(n, v) + rest == rest;
    }
  }

  lemma ReadOptAsRoundTrip<T>(n: string, x: Option<T>, render: T -> string, conv: string -> Option<T>, rest: seq<Event>)
    requires x.None? ==> !Starts(rest, n)
    requires x.Some? ==> conv(render(x.value)) == Some(x.value)
    ensures ReadOptAs(n, OptElement(n, MapOption(x, render)) + rest, conv) == Some(Parsed(x, rest))
  {
    ReadOptRoundTrip(n, MapOption(x, render), rest);
  }

  lemma ConcatFrom(pieces: seq<seq<Event>>, k: nat)
    requires k < |pieces|
    ensures Concat(pieces[k..]) == pieces[k] + Concat(pieces[k + 1..])
  {
    assert pieces[k..][1..] == pieces[k + 1..];
  }

  /** The events from write `k` on start with the closing event or an element named by a write `j >= k`. */
  lemma {:induction false} TailLead(pieces: seq<seq<Event>>, names: seq<string>, k: nat, after: seq<Event>)
    requires AllFronted(pieces, names) && k <= |pieces|
    requires |after| > 0 && after[0].Close?
    ensures |Tail(pieces, k, after)| > 0
    ensures Tail(pieces, k, after)[0].Close?
         || exists j :: k <= j < |names| && Tail(pieces, k, after)[0] == Open(names[j])
    decreases |pieces| - k
  {
    if k == |pieces| {
      assert pieces[k..] == [];
      assert Tail(pieces, k, after) == after;
    } else {
      ConcatFrom(pieces, k);
      assert Tail(pieces, k, after) == pieces[k] + Tail(pieces, k + 1, after);
      if pieces[k] == [] {
        TailLead(pieces, names, k + 1, after);
      } else {
        assert Tail(pieces, k, after)[0] == Open(names[k]);
      }
    }
  }

  /** Reading write `k` leaves exactly the events after it, which do not start with its own name. */
  lemma TailStep(pieces: seq<seq<Event>>, names: seq<string>, k: nat, after: seq<Event>)
    requires AllFronted(pieces, names) && Distinct(names) && k < |pieces|
    requires |after| > 0 && after[0].Close?
    ensures Tail(pieces, k, after) == pieces[k] + Tail(pieces, k + 1, after)
    ensures !Starts(Tail(pieces, k + 1, after), names[k])
  {
    ConcatFrom(pieces, k);
    TailLead(pieces, names, k + 1, after);
    var t := Tail(pieces, k + 1, after);
  }

  /** Reading the optional text write `k` by its name yields its value and leaves the writes after it. */
  lemma ReadOptStep(pieces: seq<seq<Event>>, names: seq<string>, k: nat, after: seq<Event>, v: Option<string>)
    requires AllFronted(pieces, names) && Distinct(names) && k < |pieces|
    requires |after| > 0 && after[0].Close?
    requires pieces[k] == OptElement(names[k], v)
    ensures ReadOpt(names[k], Tail(pieces, k, after)) == Some(Parsed(v, Tail(pieces, k + 1, after)))
  {
    TailStep(pieces, names, k, after);
    ReadOptRoundTrip(names[k], v, Tail(pieces, k + 1, after));
  }

  /** As `ReadOptStep`, for a value rendered by `render` and read back by `conv`. */
  lemma ReadOptAsStep<T>(pieces: seq<seq<Event>>, names: seq<string>, k: nat, after: seq<Event>,
                         x: Option<T>, render: T -> string, conv: string -> Option<T>)
    requires AllFronted(pieces, names) && Distinct(names) && k < |pieces|
    requires |after| > 0 && after[0].Close?
    requires pieces[k] == OptElement(names[k], MapOption(x, render))
    requires x.Some? ==> conv(render(x.value)) == Some(x.value)
    ensures ReadOptAs(names[k], Tail(pieces, k, after), conv) == Some(Parsed(x, Tail(pieces, k + 1, after)))
  {
    TailStep(pieces, names, k, after);
    ReadOptAsRoundTrip(names[k], x, render, conv, Tail(pieces, k + 1, after));
  }

  lemma TailEnd(pieces: seq<seq<Event>>, after: seq<Event>)
    ensures Tail(pieces, |pieces|, after) == after
  {
    assert pieces[|pieces|..] == [];
  }

  /** A stack of consecutive writes, then `rest`: the open tag, the writes, the close tag, `rest`. */
  lemma StackTail(pieces: seq<seq<Event>>, parent: string, rest: seq<Event>)
    ensures Stack(parent, Concat(pieces)) + rest == [Open(parent)] + Tail(pieces, 0, [Close(parent)] + rest)
  {
    assert pieces[0..] == pieces;
  }
}
