/**
  The XML stream writer as an abstract event stream.

  A response body is a sequence of `Open`, `Text` and `Close` events. The
  writer primitives used by the operation serialisers are pure functions
  producing such sequences:
  - `Stack(n, body)` is `<n>` body `</n>`;
  - `OptElement(n, v)` is `<n>text</n>` when `v` is present and nothing otherwise;
  - `OptStack(n, v, body)` is `Stack(n, body(x))` when `v == Some(x)` and nothing otherwise;
  - `Each(items, f)` concatenates `f(item)` in input order (a `for` loop or `iter_element`);
  - `Concat(pieces)` concatenates a sequence of consecutive writes.

  `Balanced` states that every opened tag is closed, innermost first, and
  `Children` lists the names of the top-level elements of a balanced stream.
*/
module Xml {
  import opened Wrappers

  datatype Event = Open(name: string) | Text(text: string) | Close(name: string)

  function Stack(n: string, body: seq<Event>): seq<Event>
  {
    [Open(n)] + body + [Close(n)]
  }

  function OptElement(n: string, v: Option<string>): seq<Event>
  {
    match v
    case None => []
    case Some(t) => Stack(n, [Text(t)])
  }

  function OptStack<T>(n: string, v: Option<T>, body: T -> seq<Event>): seq<Event>
  {
    match v
    case None => []
    case Some(x) => Stack(n, body(x))
  }

  function Each<T>(items: seq<T>, f: T -> seq<Event>): seq<Event>
    decreases |items|
  {
    if items == [] then [] else f(items[0]) + Each(items[1..], f)
  }

  function Concat(pieces: seq<seq<Event>>): seq<Event>
    decreases |pieces|
  {
    if pieces == [] then [] else pieces[0] + Concat(pieces[1..])
  }

  /** `n` repeated `k` times. */
  function Repeat(n: string, k: nat): seq<string>
  {
    seq(k, _ => n)
  }

  /** 1 when `v` is present, 0 otherwise. */
  function Count<T>(v: Option<T>): nat
  {
    if v.Some? then 1 else 0
  }

  /** `[n]` when `v` is present, `[]` otherwise. */
  function IfPresent<T>(n: string, v: Option<T>): seq<string>
  {
    Repeat(n, Count(v))
  }

  // ---------------------------------------------------------------------------
  // Balance: the stack of open tag names, top at the end.
  // ---------------------------------------------------------------------------

  /** Runs `evs` against the stack `open`; `None` when a `Close` does not match the innermost open tag. */
  function Check(evs: seq<Event>, open: seq<string>): Option<seq<string>>
    decreases |evs|
  {
    if evs == [] then Some(open)
    else match evs[0]
      case Open(n) => Check(evs[1..], open + [n])
      case Text(_) => Check(evs[1..], open)
      case Close(n) =>
        if open != [] && open[|open| - 1] == n then Check(evs[1..], open[..|open| - 1]) else None
  }

  /** Every `Open` has a matching `Close`, in LIFO order. */
  predicate Balanced(evs: seq<Event>)
  {
    Check(evs, []) == Some([])
  }

  /** A single root element named `root` wrapping a balanced content. */
  predicate IsDocument(evs: seq<Event>, root: string)
  {
    && |evs| >= 2
    && evs[0] == Open(root)
    && evs[|evs| - 1] == Close(root)
    && Balanced(evs[1..|evs| - 1])
  }

  /** The content of a document, between its root tags. */
  function Inner(evs: seq<Event>): seq<Event>
    requires |evs| >= 2
  {
    evs[1..|evs| - 1]
  }

  lemma {:induction false} CheckAppend(a: seq<Event>, b: seq<Event>, open: seq<string>)
    ensures Check(a + b, open) == (match Check(a, open) case None => None case Some(o) => Check(b, o))
    decreases |a|
  {
    if a == [] {
      assert a + b == b;
    } else {
      assert (a + b)[0] == a[0];
      assert (a + b)[1..] == a[1..] + b;
      match a[0]
      case Open(n) => CheckAppend(a[1..], b, open + [n]);
      case Text(_) => CheckAppend(a[1..], b, open);
      case Close(n) =>
        if open != [] && open[|open| - 1] == n {
          CheckAppend(a[1..], b, open[..|open| - 1]);
        }
    }
  }

  /** A run that succeeds from `open` succeeds the same way below any further open tags. */
  lemma {:induction false} CheckFrame(a: seq<Event>, open: seq<string>, out: seq<string>, base: seq<string>)
    requires Check(a, open) == Some(out)
    ensures Check(a, base + open) == Some(base + out)
    decreases |a|
  {
    if a != [] {
      match a[0]
      case Open(n) =>
        assert base + open + [n] == base + (open + [n]);
        CheckFrame(a[1..], open + [n], out, base);
      case Text(_) =>
        CheckFrame(a[1..], open, out, base);
      case Close(n) =>
        var b := base + open;
        assert b[|b| - 1] == open[|open| - 1];
        assert b[..|b| - 1] == base + open[..|open| - 1];
        CheckFrame(a[1..], open[..|open| - 1], out, base);
    }
  }

  lemma BalancedFrom(a: seq<Event>, open: seq<string>)
    requires Balanced(a)
    ensures Check(a, open) == Some(open)
  {
    CheckFrame(a, [], [], open);
    assert open + [] == open;
  }

  lemma BalancedAppend(a: seq<Event>, b: seq<Event>)
    requires Balanced(a) && Balanced(b)
    ensures Balanced(a + b)
  {
    CheckAppend(a, b, []);
  }

  lemma BalancedStack(n: string, body: seq<Event>)
    requires Balanced(body)
    ensures Balanced(Stack(n, body))
    ensures IsDocument(Stack(n, body), n) && Inner(Stack(n, body)) == body
  {
    CheckAppend([Open(n)] + body, [Close(n)], []);
    CheckAppend([Open(n)], body, []);
    assert [Open(n)][1..] == [];
    assert [] + [n] == [n];
    assert Check([Open(n)], []) == Some([n]);
    BalancedFrom(body, [n]);
    assert Check([Close(n)], [n]) == Some([]);
    var s := Stack(n, body);
    assert s[1..|s| - 1] == body;
  }

  lemma BalancedOptElement(n: string, v: Option<string>)
    ensures Balanced(OptElement(n, v))
  {
    if v.Some? {
      assert Check([Text(v.value)], []) == Some([]);
      BalancedStack(n, [Text(v.value)]);
    }
  }

  lemma BalancedOptStack<T>(n: string, v: Option<T>, body: T -> seq<Event>)
    requires v.Some? ==> Balanced(body(v.value))
    ensures Balanced(OptStack(n, v, body))
  {
    if v.Some? {
      BalancedStack(n, body(v.value));
    }
  }

  lemma {:induction false} BalancedEach<T>(items: seq<T>, f: T -> seq<Event>)
    requires forall i :: 0 <= i < |items| ==> Balanced(f(items[i]))
    ensures Balanced(Each(items, f))
    decreases |items|
  {
    if items != [] {
      BalancedEach(items[1..], f);
      BalancedAppend(f(items[0]), Each(items[1..], f));
    }
  }

  lemma {:induction false} BalancedConcat(pieces: seq<seq<Event>>)
    requires forall i :: 0 <= i < |pieces| ==> Balanced(pieces[i])
    ensures Balanced(Concat(pieces))
    decreases |pieces|
  {
    if pieces != [] {
      BalancedConcat(pieces[1..]);
      BalancedAppend(pieces[0], Concat(pieces[1..]));
    }
  }

  // ---------------------------------------------------------------------------
  // Children: names of the elements opened at depth zero.
  // ---------------------------------------------------------------------------

  /** The nesting depth after `evs`, starting at depth `d`. */
  function Depth(evs: seq<Event>, d: int): int
    decreases |evs|
  {
    if evs == [] then d
    else match evs[0]
      case Open(_) => Depth(evs[1..], d + 1)
      case Text(_) => Depth(evs[1..], d)
      case Close(_) => Depth(evs[1..], d - 1)
  }

  /** The names of the elements `evs` opens at depth zero, starting at depth `d`. */
  function TopNames(evs: seq<Event>, d: int): seq<string>
    decreases |evs|
  {
    if evs == [] then []
    else match evs[0]
      case Open(n) => (if d == 0 then [n] else []) + TopNames(evs[1..], d + 1)
      case Text(_) => TopNames(evs[1..], d)
      case Close(_) => TopNames(evs[1..], d - 1)
  }

  /** The names of the top-level elements of `evs`, in order. */
  function Children(evs: seq<Event>): seq<string>
  {
    TopNames(evs, 0)
  }

  lemma {:induction false} TopNamesAppend(a: seq<Event>, b: seq<Event>, d: int)
    ensures TopNames(a + b, d) == TopNames(a, d) + TopNames(b, Depth(a, d))
    ensures Depth(a + b, d) == Depth(b, Depth(a, d))
    decreases |a|
  {
    if a == [] {
      assert a + b == b;
    } else {
      assert (a + b)[0] == a[0];
      assert (a + b)[1..] == a[1..] + b;
      match a[0]
      case Open(n) => TopNamesAppend(a[1..], b, d + 1);
      case Text(_) => TopNamesAppend(a[1..], b, d);
      case Close(_) => TopNamesAppend(a[1..], b, d - 1);
    }
  }

  lemma {:induction false} CheckDepth(a: seq<Event>, open: seq<string>, out: seq<string>, d: int)
    requires Check(a, open) == Some(out)
    ensures Depth(a, d) == d + |out| - |open|
    decreases |a|
  {
    if a != [] {
      match a[0]
      case Open(n) => CheckDepth(a[1..], open + [n], out, d + 1);
      case Text(_) => CheckDepth(a[1..], open, out, d);
      case Close(n) => CheckDepth(a[1..], open[..|open| - 1], out, d - 1);
    }
  }

  /** A stream that never closes more than `open` opens nothing at depth zero when started deeper than `open`. */
  lemma {:induction false} NestedNamesEmpty(a: seq<Event>, open: seq<string>, d: int)
    requires Check(a, open).Some?
    requires d > |open|
    ensures TopNames(a, d) == []
    decreases |a|
  {
    if a != [] {
      match a[0]
      case Open(n) => NestedNamesEmpty(a[1..], open + [n], d + 1);
      case Text(_) => NestedNamesEmpty(a[1..], open, d);
      case Close(n) => NestedNamesEmpty(a[1..], open[..|open| - 1], d - 1);
    }
  }

  lemma ChildrenAppend(a: seq<Event>, b: seq<Event>)
    requires Balanced(a)
    ensures Children(a + b) == Children(a) + Children(b)
  {
    TopNamesAppend(a, b, 0);
    CheckDepth(a, [], [], 0);
  }

  lemma ChildrenStack(n: string, body: seq<Event>)
    requires Balanced(body)
    ensures Children(Stack(n, body)) == [n]
  {
    TopNamesAppend([Open(n)] + body, [Close(n)], 0);
    TopNamesAppend([Open(n)], body, 0);
    NestedNamesEmpty(body, [], 1);
    assert TopNames([Close(n)], Depth(body, 1)) == [];
  }

  lemma ChildrenOptElement(n: string, v: Option<string>)
    ensures Children(OptElement(n, v)) == IfPresent(n, v)
  {
    if v.Some? {
      assert Check([Text(v.value)], []) == Some([]);
      ChildrenStack(n, [Text(v.value)]);
      assert [n] == Repeat(n, 1);
    }
  }

  lemma ChildrenOptStack<T>(n: string, v: Option<T>, body: T -> seq<Event>)
    requires v.Some? ==> Balanced(body(v.value))
    ensures Children(OptStack(n, v, body)) == IfPresent(n, v)
  {
    if v.Some? {
      ChildrenStack(n, body(v.value));
      assert [n] == Repeat(n, 1);
    }
  }

  /** One top-level `n` per item when every item renders as one `n` element. */
  lemma {:induction false} ChildrenEach<T>(items: seq<T>, f: T -> seq<Event>, n: string)
    requires forall i :: 0 <= i < |items| ==> Balanced(f(items[i])) && Children(f(items[i])) == [n]
    ensures Children(Each(items, f)) == Repeat(n, |items|)
    decreases |items|
  {
    if items != [] {
      ChildrenEach(items[1..], f, n);
      ChildrenAppend(f(items[0]), Each(items[1..], f));
      assert [n] + Repeat(n, |items| - 1) == Repeat(n, |items|);
    }
  }

  /** Each name of `names`, repeated by the matching entry of `counts`, in order. */
  function Expand(names: seq<string>, counts: seq<nat>): seq<string>
    requires |names| == |counts|
    decreases |names|
  {
    if names == [] then [] else Repeat(names[0], counts[0]) + Expand(names[1..], counts[1..])
  }

  /**
    Consecutive balanced writes, write `i` holding `counts[i]` top-level
    elements named `names[i]`, have the children `Expand(names, counts)`.
  */
  lemma {:induction false} ChildrenConcat(pieces: seq<seq<Event>>, names: seq<string>, counts: seq<nat>)
    requires |pieces| == |names| == |counts|
    requires forall i :: 0 <= i < |pieces| ==> Balanced(pieces[i]) && Children(pieces[i]) == Repeat(names[i], counts[i])
    ensures Balanced(Concat(pieces))
    ensures Children(Concat(pieces)) == Expand(names, counts)
    decreases |pieces|
  {
    if pieces != [] {
      ChildrenConcat(pieces[1..], names[1..], counts[1..]);
      BalancedAppend(pieces[0], Concat(pieces[1..]));
      ChildrenAppend(pieces[0], Concat(pieces[1..]));
    }
  }
}
