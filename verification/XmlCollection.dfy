/** The streaming recogniser of exact XML collections: depth counters over start
    and end events, against the shape of the tree they come from. */
module XmlCollection {
  import opened Options

  datatype Element = Element(tag: string, attributes: map<string, string>)

  datatype Node = Node(element: Element, children: seq<Node>)

  datatype Event = Start(element: Element) | End(element: Element)

  /** What is asked for: the root, an optional collection below it, and the tags
      its children may have. */
  datatype Request = Request(root: string, collection: Option<string>, allowed: set<string>)

  /** The part of a tag behind its namespace. */
  function LocalName(tag: string): (name: string)
    ensures '}' !in name
  {
    if '}' in tag then LocalName(tag[1..]) else tag
  }

  function Events(n: Node): seq<Event>
    decreases n, 1
  {
    [Start(n.element)] + ForestEvents(n.children) + [End(n.element)]
  }

  function ForestEvents(ns: seq<Node>): seq<Event>
    decreases ns, 0
  {
    if ns == [] then [] else Events(ns[0]) + ForestEvents(ns[1..])
  }

  // ---- The shape of the tree ------------------------------------------------------------------

  predicate Named(e: Element, req: Request) {
    req.collection.Some? && LocalName(e.tag) == LocalName(req.collection.value)
  }

  /** Some element of the tree has the collection's local name. */
  predicate Mentions(n: Node, req: Request)
    decreases n, 1
  {
    Named(n.element, req) || exists i :: 0 <= i < |n.children| && Mentions(n.children[i], req)
  }

  /** A leaf with an allowed tag that is not itself named like the collection. */
  predicate Item(n: Node, req: Request) {
    n.element.tag in req.allowed && n.children == [] && !Named(n.element, req)
  }

  predicate OnlyItems(ns: seq<Node>, req: Request) {
    forall i :: 0 <= i < |ns| ==> Item(ns[i], req)
  }

  function Elements(ns: seq<Node>): seq<Element> {
    seq(|ns|, i requires 0 <= i < |ns| => ns[i].element)
  }

  /** The k-th child is the collection, and nothing else in the forest is named
      like it. */
  predicate CollectionAt(ns: seq<Node>, k: nat, req: Request) {
    && k < |ns| && req.collection == Some(ns[k].element.tag) && OnlyItems(ns[k].children, req)
    && forall i :: 0 <= i < |ns| && i != k ==> !Mentions(ns[i], req)
  }

  /** The tree is exactly the requested collection, holding these items. */
  ghost predicate Exact(tree: Node, req: Request, items: seq<Element>) {
    && tree.element.tag == req.root
    && if req.collection.None? then OnlyItems(tree.children, req) && items == Elements(tree.children)
       else exists k: nat :: CollectionAt(tree.children, k, req) && items == Elements(tree.children[k].children)
  }

  // ---- The state machine ------------------------------------------------------------------------

  datatype State = State(
    depth: int, rootSeen: bool, rootClosed: bool, collectionSeen: bool,
    collectionDepth: Option<int>, childDepth: Option<int>, items: seq<Element>)

  const INITIAL := State(0, false, false, false, None, None, [])

  /** The root or a collection opens; None is a rejection. */
  function Open(s: State, e: Element, req: Request): Option<State> {
    if s.depth == 1 then
      if s.rootSeen || e.tag != req.root then None
      else if req.collection.None? then Some(s.(rootSeen := true, collectionSeen := true, collectionDepth := Some(1)))
      else Some(s.(rootSeen := true))
    else if Named(e, req) then
      if Some(e.tag) != req.collection || s.depth != 2 || s.collectionSeen then None
      else Some(s.(collectionSeen := true, collectionDepth := Some(s.depth)))
    else Some(s)
  }

  function Enter(s: State, e: Element, req: Request): Option<State> {
    if s.collectionDepth.Some? && s.depth == s.collectionDepth.value + 1 then
      if e.tag !in req.allowed || s.childDepth.Some? then None else Some(s.(childDepth := Some(s.depth)))
    else if s.childDepth.Some? && s.depth > s.childDepth.value then None
    else Some(s)
  }

  function LeaveChild(s: State, e: Element, req: Request): Option<State> {
    if s.childDepth == Some(s.depth) then
      if e.tag !in req.allowed then None else Some(s.(items := s.items + [e], childDepth := None))
    else Some(s)
  }

  function LeaveCollection(s: State, e: Element, req: Request): Option<State> {
    if s.collectionDepth == Some(s.depth) then
      if req.collection.Some? && Some(e.tag) != req.collection then None else Some(s.(collectionDepth := None))
    else Some(s)
  }

  function LeaveRoot(s: State, e: Element, req: Request): Option<State> {
    if s.depth == 1 then
      if e.tag != req.root then None else Some(s.(rootClosed := true))
    else Some(s)
  }

  function Feed(s: State, event: Event, req: Request): Option<State> {
    match event
    case Start(e) =>
      var begun := Open(s.(depth := s.depth + 1), e, req);
      if begun.None? then None else Enter(begun.value, e, req)
    case End(e) =>
      var a := LeaveChild(s, e, req);
      if a.None? then None else
      var b := LeaveCollection(a.value, e, req);
      if b.None? then None else
      var c := LeaveRoot(b.value, e, req);
      if c.None? then None else Some(c.value.(depth := c.value.depth - 1))
  }

  function Run(s: Option<State>, events: seq<Event>, req: Request): Option<State>
    decreases |events|
  {
    if s.None? || events == [] then s else Run(Feed(s.value, events[0], req), events[1..], req)
  }

  function Verdict(s: Option<State>): Option<seq<Element>> {
    if s.Some? && s.value.depth == 0 && s.value.rootSeen && s.value.rootClosed && s.value.collectionSeen
       && s.value.collectionDepth.None? && s.value.childDepth.None?
    then Some(s.value.items) else None
  }

  function Recognise(events: seq<Event>, req: Request): Option<seq<Element>> {
    Verdict(Run(Some(INITIAL), events, req))
  }

  // ---- The loop of _exact_collection_items -------------------------------------------------------

  lemma {:induction false} RunConcat(s: Option<State>, a: seq<Event>, b: seq<Event>, req: Request)
    ensures Run(s, a + b, req) == Run(Run(s, a, req), b, req)
    decreases |a|
  {
    hide Feed;
    if a == [] {
      assert a + b == b;
    } else if s.Some? {
      RunConcat(Feed(s.value, a[0], req), a[1..], b, req);
      assert (a + b)[1..] == a[1..] + b;
    }
  }

  lemma RunSnoc(events: seq<Event>, i: nat, req: Request)
    requires i < |events|
    ensures var s := Run(Some(INITIAL), events[..i], req);
            Run(Some(INITIAL), events[..i + 1], req) == if s.None? then None else Feed(s.value, events[i], req)
  {
    hide Feed;
    assert events[..i + 1] == events[..i] + [events[i]];
    RunConcat(Some(INITIAL), events[..i], [events[i]], req);
    assert [events[i]][1..] == [];
  }

  lemma {:induction false} RejectedStays(events: seq<Event>, i: nat, req: Request)
    requires i <= |events| && Run(Some(INITIAL), events[..i], req).None?
    ensures Run(Some(INITIAL), events, req).None?
  {
    assert events == events[..i] + events[i..];
    RunConcat(Some(INITIAL), events[..i], events[i..], req);
  }

  /** The event loop, with its counters as local variables. */
  method ExactCollectionItems(events: seq<Event>, req: Request) returns (result: Option<seq<Element>>)
    ensures result == Recognise(events, req)
  {
    var items: seq<Element> := [];
    var depth, rootSeen, rootClosed, collectionSeen := 0, false, false, false;
    var collectionDepth: Option<int>, childDepth: Option<int> := None, None;
    for i := 0 to |events|
      invariant Run(Some(INITIAL), events[..i], req) ==
                Some(State(depth, rootSeen, rootClosed, collectionSeen, collectionDepth, childDepth, items))
    {
      RunSnoc(events, i, req);
      var e := events[i].element;
      if events[i].Start? {
        depth := depth + 1;
        if depth == 1 {
          if rootSeen || e.tag != req.root { RejectedStays(events, i + 1, req); return None; }
          rootSeen := true;
          if req.collection.None? { collectionSeen, collectionDepth := true, Some(depth); }
        } else if Named(e, req) {
          if Some(e.tag) != req.collection || depth != 2 || collectionSeen { RejectedStays(events, i + 1, req); return None; }
          collectionSeen, collectionDepth := true, Some(depth);
        }
        if collectionDepth.Some? && depth == collectionDepth.value + 1 {
          if e.tag !in req.allowed || childDepth.Some? { RejectedStays(events, i + 1, req); return None; }
          childDepth := Some(depth);
        } else if childDepth.Some? && depth > childDepth.value {
          RejectedStays(events, i + 1, req);
          return None;
        }
      } else {
        if childDepth == Some(depth) {
          if e.tag !in req.allowed { RejectedStays(events, i + 1, req); return None; }
          items, childDepth := items + [e], None;
        }
        if collectionDepth == Some(depth) {
          if req.collection.Some? && Some(e.tag) != req.collection { RejectedStays(events, i + 1, req); return None; }
          collectionDepth := None;
        }
        if depth == 1 {
          if e.tag != req.root { RejectedStays(events, i + 1, req); return None; }
          rootClosed := true;
        }
        depth := depth - 1;
      }
    }
    assert events[..|events|] == events;
    if depth != 0 || !rootSeen || !rootClosed || !collectionSeen || collectionDepth.Some? || childDepth.Some? { return None; }
    result := Some(items);
  }

  // ---- From events back to the tree -----------------------------------------------------------------

  lemma RunNode(s: State, n: Node, req: Request)
    ensures var begun := Feed(s, Start(n.element), req);
            var inside := Run(begun, ForestEvents(n.children), req);
            Run(Some(s), Events(n), req) == if inside.None? then None else Feed(inside.value, End(n.element), req)
  {
    hide Feed;
    var begun := Feed(s, Start(n.element), req);
    var rest := ForestEvents(n.children) + [End(n.element)];
    assert Events(n) == [Start(n.element)] + rest;
    assert Events(n)[1..] == rest;
    RunConcat(begun, ForestEvents(n.children), [End(n.element)], req);
    assert [End(n.element)][1..] == [];
  }

  lemma RunForest(s: Option<State>, ns: seq<Node>, req: Request)
    requires ns != []
    ensures Run(s, ForestEvents(ns), req) == Run(Run(s, Events(ns[0]), req), ForestEvents(ns[1..]), req)
  {
    hide Feed, Events;
    RunConcat(s, Events(ns[0]), ForestEvents(ns[1..]), req);
  }

  /** Below the root, outside any collection. */
  predicate Outside(s: State, req: Request) {
    s.depth >= 1 && s.collectionDepth.None? && s.childDepth.None? && req.collection.Some?
  }

  /** Outside the collection a subtree passes unnoticed unless it mentions it. */
  lemma {:induction false} RunOutside(s: State, n: Node, req: Request)
    requires Outside(s, req) && (s.depth >= 2 || !Named(n.element, req))
    ensures Run(Some(s), Events(n), req) == if Mentions(n, req) then None else Some(s)
    decreases n, 1
  {
    RunNode(s, n, req);
    if !Named(n.element, req) {
      RunForestOutside(s.(depth := s.depth + 1), n.children, req);
    }
    hide Named;
  }

  lemma {:induction false} RunForestOutside(s: State, ns: seq<Node>, req: Request)
    requires Outside(s, req) && s.depth >= 2
    ensures Run(Some(s), ForestEvents(ns), req) ==
            if exists i :: 0 <= i < |ns| && Mentions(ns[i], req) then None else Some(s)
    decreases ns, 0
  {
    hide Feed, Events, Mentions;
    if ns != [] {
      RunForest(Some(s), ns, req);
      RunOutside(s, ns[0], req);
      RunForestOutside(s, ns[1..], req);
      assert forall i :: 0 < i < |ns| ==> ns[i] == ns[1..][i - 1];
      assert forall i :: 0 <= i < |ns| - 1 ==> ns[1..][i] == ns[i + 1];
    }
  }

  /** Directly inside the open collection. */
  predicate Inside(s: State, req: Request) {
    && s.depth >= 1 && s.collectionDepth == Some(s.depth) && s.childDepth.None?
    && (req.collection.Some? ==> s.collectionSeen && s.depth == 2)
  }

  lemma StartOfForest(ns: seq<Node>)
    requires ns != []
    ensures ForestEvents(ns) != [] && ForestEvents(ns)[0] == Start(ns[0].element)
  {
  }

  /** Inside the collection only an item gets through, and it is recorded. */
  lemma {:induction false} RunInside(s: State, n: Node, req: Request)
    requires Inside(s, req)
    ensures Run(Some(s), Events(n), req) == if Item(n, req) then Some(s.(items := s.items + [n.element])) else None
  {
    RunNode(s, n, req);
    hide Events;
    if n.children != [] { StartOfForest(n.children); }
    hide ForestEvents, Named;
  }

  lemma {:induction false} RunForestInside(s: State, ns: seq<Node>, req: Request)
    requires Inside(s, req)
    ensures Run(Some(s), ForestEvents(ns), req) ==
            if OnlyItems(ns, req) then Some(s.(items := s.items + Elements(ns))) else None
    decreases |ns|
  {
    hide Feed, Events, Item;
    if ns == [] {
      assert s.items + Elements(ns) == s.items;
    } else {
      RunForest(Some(s), ns, req);
      RunInside(s, ns[0], req);
      var t := s.(items := s.items + [ns[0].element]);
      if Item(ns[0], req) {
        RunForestInside(t, ns[1..], req);
        assert Elements(ns) == [ns[0].element] + Elements(ns[1..]);
        assert s.items + Elements(ns) == t.items + Elements(ns[1..]);
      }
      assert OnlyItems(ns, req) <==> Item(ns[0], req) && OnlyItems(ns[1..], req) by {
        assert forall i :: 0 < i < |ns| ==> ns[i] == ns[1..][i - 1];
      }
    }
  }

  /** Below the root of a request that names a collection. */
  predicate AtRoot(s: State, req: Request) {
    Outside(s, req) && s.depth == 1
  }

  lemma RunCollection(s: State, n: Node, req: Request)
    requires AtRoot(s, req) && Named(n.element, req)
    ensures Run(Some(s), Events(n), req) ==
            if !s.collectionSeen && Some(n.element.tag) == req.collection && OnlyItems(n.children, req)
            then Some(s.(collectionSeen := true, items := s.items + Elements(n.children))) else None
  {
    RunNode(s, n, req);
    hide Events;
    if !s.collectionSeen && Some(n.element.tag) == req.collection {
      RunForestInside(s.(depth := 2, collectionSeen := true, collectionDepth := Some(2)), n.children, req);
    }
    hide OnlyItems, Named, ForestEvents;
  }

  /** What the children of the root add up to. */
  datatype Gathered = Rejected | Gathered(seen: bool, items: seq<Element>)

  function Gather(ns: seq<Node>, seen: bool, req: Request): (g: Gathered)
    ensures g.Gathered? && seen ==> g.seen
  {
    if ns == [] then Gathered(seen, [])
    else if Named(ns[0].element, req) then
      if !seen && Some(ns[0].element.tag) == req.collection && OnlyItems(ns[0].children, req)
      then match Gather(ns[1..], true, req) case Rejected => Rejected case Gathered(_, rest) => Gathered(true, Elements(ns[0].children) + rest)
      else Rejected
    else if Mentions(ns[0], req) then Rejected
    else Gather(ns[1..], seen, req)
  }

  lemma {:induction false} RunRootForest(s: State, ns: seq<Node>, req: Request)
    requires AtRoot(s, req)
    ensures Run(Some(s), ForestEvents(ns), req) ==
            match Gather(ns, s.collectionSeen, req)
            case Rejected => None
            case Gathered(seen, items) => Some(s.(collectionSeen := seen, items := s.items + items))
    decreases |ns|
  {
    hide Feed, Events, OnlyItems, Mentions, Named;
    if ns == [] {
      assert s.items + [] == s.items;
    } else {
      RunForest(Some(s), ns, req);
      if Named(ns[0].element, req) {
        RunCollection(s, ns[0], req);
        if !s.collectionSeen && Some(ns[0].element.tag) == req.collection && OnlyItems(ns[0].children, req) {
          var t := s.(collectionSeen := true, items := s.items + Elements(ns[0].children));
          RunRootForest(t, ns[1..], req);
          var rest := Gather(ns[1..], true, req);
          if rest.Gathered? {
            assert t.items + rest.items == s.items + (Elements(ns[0].children) + rest.items);
          }
        }
      } else {
        RunOutside(s, ns[0], req);
        if !Mentions(ns[0], req) { RunRootForest(s, ns[1..], req); }
      }
    }
  }

  lemma {:induction false} GatherSeen(ns: seq<Node>, req: Request)
    requires req.collection.Some?
    ensures Gather(ns, true, req) ==
            if exists i :: 0 <= i < |ns| && Mentions(ns[i], req) then Rejected else Gathered(true, [])
  {
    if ns != [] {
      GatherSeen(ns[1..], req);
      assert Named(ns[0].element, req) ==> Mentions(ns[0], req);
      hide Mentions, Named;
      assert forall i :: 0 < i < |ns| ==> ns[i] == ns[1..][i - 1];
      assert forall i :: 0 <= i < |ns| - 1 ==> ns[1..][i] == ns[i + 1];
    }
  }

  lemma CollectionHere(ns: seq<Node>, req: Request)
    requires ns != [] && Named(ns[0].element, req)
    ensures CollectionAt(ns, 0, req) <==>
              Some(ns[0].element.tag) == req.collection && OnlyItems(ns[0].children, req) && Gather(ns[1..], true, req).Gathered?
    ensures Gather(ns[1..], true, req).Gathered? ==> Gather(ns[1..], true, req) == Gathered(true, [])
    ensures forall k: nat :: k > 0 ==> !CollectionAt(ns, k, req)
  {
    GatherSeen(ns[1..], req);
    assert Mentions(ns[0], req);
    hide Mentions, OnlyItems, Named;
    assert forall i :: 0 < i < |ns| ==> ns[i] == ns[1..][i - 1];
    assert forall i :: 0 <= i < |ns| - 1 ==> ns[1..][i] == ns[i + 1];
  }

  lemma CollectionLater(ns: seq<Node>, k: nat, req: Request)
    requires ns != [] && !Named(ns[0].element, req)
    ensures !CollectionAt(ns, 0, req)
    ensures CollectionAt(ns, k + 1, req) <==> !Mentions(ns[0], req) && CollectionAt(ns[1..], k, req)
  {
    hide Mentions, OnlyItems;
    assert forall i :: 0 < i < |ns| ==> ns[i] == ns[1..][i - 1];
    assert forall i :: 0 <= i < |ns| - 1 ==> ns[1..][i] == ns[i + 1];
  }

  /** Gathering succeeds exactly when one child is the collection and nothing
      else is named like it; it yields that child's items. */
  lemma {:induction false} GatherExact(ns: seq<Node>, req: Request, items: seq<Element>)
    requires req.collection.Some?
    ensures Gather(ns, false, req) == Gathered(true, items) <==>
              exists k: nat :: CollectionAt(ns, k, req) && items == Elements(ns[k].children)
    decreases |ns|
  {
    hide Mentions, OnlyItems, CollectionAt, Named, Elements;
    if ns == [] {
      assert forall k: nat :: !CollectionAt(ns, k, req) by { NoCollection(req); }
    } else if Named(ns[0].element, req) {
      CollectionHere(ns, req);
      assert Elements(ns[0].children) + [] == Elements(ns[0].children);
    } else {
      GatherExact(ns[1..], req, items);
      GatherShift(ns, req, items);
    }
  }

  lemma NoCollection(req: Request)
    ensures forall k: nat :: !CollectionAt([], k, req)
  {
  }

  lemma GatherShift(ns: seq<Node>, req: Request, items: seq<Element>)
    requires ns != [] && !Named(ns[0].element, req)
    ensures (exists k: nat :: CollectionAt(ns, k, req) && items == Elements(ns[k].children)) <==>
            !Mentions(ns[0], req) && exists k: nat :: CollectionAt(ns[1..], k, req) && items == Elements(ns[1..][k].children)
  {
    CollectionLater(ns, 0, req);
    hide Mentions, Named, Elements;
    if k: nat :| CollectionAt(ns, k, req) && items == Elements(ns[k].children) {
      CollectionLater(ns, k - 1, req);
      assert CollectionAt(ns[1..], k - 1, req) && ns[1..][k - 1] == ns[k];
    }
    if !Mentions(ns[0], req) {
      if k: nat :| CollectionAt(ns[1..], k, req) && items == Elements(ns[1..][k].children) {
        CollectionLater(ns, k, req);
        assert CollectionAt(ns, k + 1, req) && ns[1..][k] == ns[k + 1];
      }
    }
  }

  lemma RootWithCollection(tree: Node, req: Request)
    requires req.collection.Some? && tree.element.tag == req.root
    ensures Recognise(Events(tree), req) ==
            match Gather(tree.children, false, req)
            case Rejected => None
            case Gathered(seen, items) => if seen then Some(items) else None
  {
    RunNode(INITIAL, tree, req);
    hide Events;
    var s := INITIAL.(depth := 1, rootSeen := true);
    RunRootForest(s, tree.children, req);
    var g := Gather(tree.children, false, req);
    if g.Gathered? { assert [] + g.items == g.items; }
    hide Gather, ForestEvents;
  }

  lemma RootIsCollection(tree: Node, req: Request)
    requires req.collection.None? && tree.element.tag == req.root
    ensures Recognise(Events(tree), req) == if OnlyItems(tree.children, req) then Some(Elements(tree.children)) else None
  {
    RunNode(INITIAL, tree, req);
    hide Events;
    RunForestInside(INITIAL.(depth := 1, rootSeen := true, collectionSeen := true, collectionDepth := Some(1)), tree.children, req);
    assert [] + Elements(tree.children) == Elements(tree.children);
    hide OnlyItems, ForestEvents;
  }

  lemma WrongRoot(tree: Node, req: Request)
    requires tree.element.tag != req.root
    ensures Recognise(Events(tree), req) == None
  {
    RunNode(INITIAL, tree, req);
    hide Events;
  }

  /** On the events of any tree the recogniser succeeds exactly when the tree is
      the requested collection, and returns its items in document order. */
  lemma RecogniseExact(tree: Node, req: Request, items: seq<Element>)
    ensures Recognise(Events(tree), req) == Some(items) <==> Exact(tree, req, items)
  {
    hide Recognise, Events, Gather, OnlyItems, CollectionAt, Elements;
    if tree.element.tag != req.root {
      WrongRoot(tree, req);
    } else if req.collection.None? {
      RootIsCollection(tree, req);
    } else {
      RootWithCollection(tree, req);
      GatherExact(tree.children, req, items);
    }
  }
}
