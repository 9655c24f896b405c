/**
 * The listbar: a side bar whose items arrive in batches. New item buttons are
 * collected in a pending batch; sending the batch appends them all as children
 * once the batch is large enough, and an intersection observer is re-pointed at
 * the newly last child so that scrolling it into view raises `endreach`.
 */
module Listbar {
  import opened Wrappers
  import Dom

  /** Identity of an element node. */
  type Item = nat

  /** Identity of a click callback handed in by the application. */
  type Handler = nat

  /** One intersection-observer entry: the observed node and whether it now intersects the root. */
  datatype Entry = Entry(target: Item, isIntersecting: bool)

  /** The calls made on the current intersection observer. */
  datatype ObserverCall = Disconnect | Observe(target: Item)

  /**
   * How `sendBatch` left: below the minimum it returns early; otherwise it sends the batch,
   * and a non-empty batch sent before the first connect throws at `scrollObserver.disconnect()`
   * once the items have been appended and the batch cleared.
   */
  datatype SendOutcome = BelowMinimum | Sent | SentWithoutObserver

  predicate Distinct(s: seq<Item>)
  {
    forall i, j :: 0 <= i < j < |s| ==> s[i] != s[j]
  }

  /** The last node of a child list, if any (`lastElementChild`). */
  function Last(s: seq<Item>): (r: Option<Item>)
    ensures r.None? <==> s == []
    ensures r.Some? ==> r.value in s
  {
    if s == [] then None else Some(s[|s| - 1])
  }

  /** The children with node `x` taken out, in order. */
  function Without(s: seq<Item>, x: Item): (r: seq<Item>)
    ensures forall y :: y in r <==> y in s && y != x
    ensures x !in s ==> r == s
    ensures |r| <= |s|
    decreases |s|
  {
    if s == [] then [] else (if s[0] == x then [] else [s[0]]) + Without(s[1..], x)
  }

  /** `appendChild(x)`: a node that is already a child moves to the end, any other node is added there. */
  function AppendChild(children: seq<Item>, x: Item): (r: seq<Item>)
    ensures r != [] && r[|r| - 1] == x
    ensures forall y :: y in r <==> y in children || y == x
    ensures x !in children ==> r == children + [x]
  {
    Without(children, x) + [x]
  }

  /** The `forEach` of `sendBatch`: append every node of `xs` in turn. */
  function AppendEach(children: seq<Item>, xs: seq<Item>): (r: seq<Item>)
    ensures forall y :: y in r <==> y in children || y in xs
    ensures xs != [] ==> r != [] && r[|r| - 1] == xs[|xs| - 1]
    decreases |xs|
  {
    if xs == [] then children else AppendChild(AppendEach(children, xs[..|xs| - 1]), xs[|xs| - 1])
  }

  /** Fresh, distinct nodes are appended in batch order: the children become `children + xs`. */
  lemma {:induction false} AppendEachFresh(children: seq<Item>, xs: seq<Item>)
    requires Distinct(children + xs)
    ensures AppendEach(children, xs) == children + xs
    decreases |xs|
  {
    if xs != [] {
      var init := xs[..|xs| - 1];
      var x := xs[|xs| - 1];
      assert children + xs == (children + init) + [x];
      assert Distinct(children + init) by {
        forall i, j | 0 <= i < j < |children + init|
          ensures (children + init)[i] != (children + init)[j]
        {
          assert (children + init)[i] == (children + xs)[i];
          assert (children + init)[j] == (children + xs)[j];
        }
      }
      AppendEachFresh(children, init);
      assert x !in children + init by {
        forall k | 0 <= k < |children + init|
          ensures (children + init)[k] != x
        {
          assert (children + init)[k] == (children + xs)[k];
          assert x == (children + xs)[|children + xs| - 1];
        }
      }
    }
  }

  lemma DistinctSnoc(s: seq<Item>, x: Item)
    requires Distinct(s) && x !in s
    ensures Distinct(s + [x])
  {
    forall i, j | 0 <= i < j < |s + [x]|
      ensures (s + [x])[i] != (s + [x])[j]
    {
      if j == |s| {
        assert (s + [x])[i] == s[i];
      }
    }
  }

  /** The nodes the observer watches after a sequence of calls: `observe` adds one, `disconnect` drops all. */
  function Targets(calls: seq<ObserverCall>): (r: set<Item>)
    ensures forall x :: x in r ==> Observe(x) in calls
    ensures calls != [] && calls[|calls| - 1].Observe? ==> calls[|calls| - 1].target in r
    decreases |calls|
  {
    if calls == [] then {}
    else match calls[|calls| - 1]
      case Disconnect => {}
      case Observe(x) => Targets(calls[..|calls| - 1]) + {x}
  }

  /** Disconnecting before observing leaves exactly one watched node, whatever was watched before. */
  lemma ResubscribeWatchesOne(calls: seq<ObserverCall>, x: Item)
    ensures Targets(calls + [Disconnect, Observe(x)]) == {x}
  {
    var c := calls + [Disconnect, Observe(x)];
    assert c[..|c| - 1] == calls + [Disconnect];
  }

  function AsSet(o: Option<Item>): set<Item>
  {
    if o.Some? then {o.value} else {}
  }

  /** A bound above every node in `s`, so that a fresh node can be numbered. */
  function Above(s: seq<Item>): (n: nat)
    ensures forall x :: x in s ==> x < n
    decreases |s|
  {
    if s == [] then 0
    else
      var rest := Above(s[1..]);
      assert forall x :: x in s ==> x == s[0] || x in s[1..];
      if s[0] < rest then rest else s[0] + 1
  }

  class VaeListbar {
    /** The element's children, in document order. */
    var children: seq<Item>
    /** `batch`: buttons handed out and not yet sent. */
    var batch: seq<Item>
    /** The click callback registered on each button handed out. */
    var handlers: map<Item, Handler>
    /** Whether `scrollObserver` exists, that is, the element has been connected. */
    var observing: bool
    /** The node the current observer watches. */
    var watched: Option<Item>
    /** The calls made on the current observer since it was created. */
    var observerCalls: seq<ObserverCall>
    /** Observers of earlier connections, never disconnected, with the node each still watches. */
    var abandoned: seq<Option<Item>>
    /** How many `endreach` events have been dispatched. */
    var endreachEvents: nat
    /** Numbering of fresh nodes. */
    var nextItem: nat
    var titleText: string
    var headerText: string

    ghost predicate Valid()
      reads this
    {
      && Distinct(children + batch)
      && (forall x :: x in children + batch ==> x < nextItem)
      && (forall x :: x in handlers ==> x < nextItem)
      && (observing ==> watched == Last(children))
      && (!observing ==> watched == None && observerCalls == [])
      && Targets(observerCalls) == AsSet(watched)
    }

    /** A listbar whose light DOM already holds `initial`. */
    constructor (initial: seq<Item>)
      requires Distinct(initial)
      ensures Valid()
      ensures children == initial && batch == [] && handlers == map[]
      ensures !observing && watched == None && observerCalls == [] && abandoned == []
      ensures endreachEvents == 0 && titleText == "" && headerText == "" && nextItem == Above(initial)
    {
      children := initial;
      batch := [];
      handlers := map[];
      observing := false;
      watched := None;
      observerCalls := [];
      abandoned := [];
      endreachEvents := 0;
      nextItem := Above(initial);
      titleText := "";
      headerText := "";
      assert initial + [] == initial;
    }

    /** `connectedCallback`: a new observer, watching the current last child if there is one. */
    method Connect()
      requires Valid()
      modifies this`observing, this`watched, this`observerCalls, this`abandoned
      ensures Valid()
      ensures observing && watched == Last(children)
      ensures observerCalls == if children == [] then [] else [Observe(children[|children| - 1])]
      ensures abandoned == if old(observing) then old(abandoned) + [old(watched)] else old(abandoned)
    {
      if observing {
        abandoned := abandoned + [watched];
      }
      observing := true;
      observerCalls := [];
      watched := None;
      if children != [] {
        var last := children[|children| - 1];
        observerCalls := [Observe(last)];
        watched := Some(last);
        assert observerCalls[..0] == [];
      }
    }

    /** `scrollObserverCallback`: one `endreach` per call whose first entry intersects; no de-duplication. */
    method ScrollObserverCallback(entries: seq<Entry>)
      modifies this`endreachEvents
      ensures endreachEvents == old(endreachEvents) + (if |entries| > 0 && entries[0].isIntersecting then 1 else 0)
    {
      if |entries| > 0 && entries[0].isIntersecting {
        endreachEvents := endreachEvents + 1;
      }
    }

    /** `sendBatch(minSize)`. */
    method SendBatch(minSize: int) returns (outcome: SendOutcome)
      requires Valid()
      modifies this`children, this`batch, this`watched, this`observerCalls
      ensures Valid()
      ensures |old(batch)| < minSize ==>
        outcome == BelowMinimum && children == old(children) && batch == old(batch)
        && watched == old(watched) && observerCalls == old(observerCalls)
      ensures |old(batch)| >= minSize ==> children == old(children) + old(batch) && batch == []
      ensures |old(batch)| >= minSize && old(batch) == [] ==>
        outcome == Sent && watched == old(watched) && observerCalls == old(observerCalls)
      ensures |old(batch)| >= minSize && old(batch) != [] && observing ==>
        outcome == Sent && watched == Some(old(batch)[|old(batch)| - 1])
        && observerCalls == old(observerCalls) + [Disconnect, Observe(old(batch)[|old(batch)| - 1])]
      ensures |old(batch)| >= minSize && old(batch) != [] && !observing ==>
        outcome == SentWithoutObserver && watched == old(watched) && observerCalls == old(observerCalls)
    {
      if |batch| < minSize {
        return BelowMinimum;
      }
      AppendBatch();
      outcome := Sent;
      if |batch| > 0 {
        var finalElement := batch[|batch| - 1];
        batch := [];
        assert children + batch == old(children + batch);
        if !observing {
          return SentWithoutObserver;
        }
        ResubscribeWatchesOne(observerCalls, finalElement);
        observerCalls := observerCalls + [Disconnect];
        watched := None;
        observerCalls := observerCalls + [Observe(finalElement)];
        watched := Some(finalElement);
        assert observerCalls == old(observerCalls) + [Disconnect, Observe(finalElement)];
      }
    }

    /** The `forEach` that appends every batched node, in batch order. */
    method AppendBatch()
      requires Distinct(children + batch)
      modifies this`children
      ensures children == old(children) + batch
    {
      var i := 0;
      while i < |batch|
        invariant 0 <= i <= |batch|
        invariant children == AppendEach(old(children), batch[..i])
      {
        assert batch[..i + 1][..i] == batch[..i];
        children := AppendChild(children, batch[i]);
        i := i + 1;
      }
      assert batch[..|batch|] == batch;
      AppendEachFresh(old(children), batch);
    }

    /** `getNewBatchElement(callback)`: a fresh button with `callback` on click, queued at the tail of the batch. */
    method GetNewBatchElement(callback: Handler) returns (item: Item)
      requires Valid()
      modifies this`batch, this`handlers, this`nextItem
      ensures Valid()
      ensures item !in old(children) && item !in old(batch) && item !in old(handlers)
      ensures batch == old(batch) + [item]
      ensures handlers == old(handlers)[item := callback]
      ensures item == old(nextItem) && nextItem == item + 1
    {
      item := nextItem;
      assert forall x :: x in children || x in batch ==> x in children + batch;
      nextItem := nextItem + 1;
      assert children + (batch + [item]) == (children + batch) + [item];
      DistinctSnoc(children + batch, item);
      batch := batch + [item];
      handlers := handlers[item := callback];
    }

    /** The `title` setter: the heading's `textContent`. */
    method SetTitle(title: Dom.Value)
      modifies this`titleText
      ensures titleText == Dom.ToNullableString(title)
    {
      titleText := Dom.ToNullableString(title);
    }

    /** The `header` setter: the sub-heading's `textContent`. */
    method SetHeader(header: Dom.Value)
      modifies this`headerText
      ensures headerText == Dom.ToNullableString(header)
    {
      headerText := Dom.ToNullableString(header);
    }

    /** `attributeChangedCallback` for the two observed attributes, `title` and `header`. */
    method AttributeChanged(name: string, newValue: Option<string>)
      requires name == "title" || name == "header"
      modifies this`titleText, this`headerText
      ensures name == "title" ==> titleText == Dom.ToNullableString(Dom.FromAttribute(newValue)) && headerText == old(headerText)
      ensures name == "header" ==> headerText == Dom.ToNullableString(Dom.FromAttribute(newValue)) && titleText == old(titleText)
    {
      if name == "title" {
        SetTitle(Dom.FromAttribute(newValue));
      } else {
        SetHeader(Dom.FromAttribute(newValue));
      }
    }
  }

  /**
   * Three items queued: a minimum of four leaves everything as it was, a minimum of three sends them
   * in order and leaves the observer on the third. A listbar mounted over [x, y] watches y at once.
   */
  method SendScenario(x: Item, y: Item) returns (lb: VaeListbar)
    requires x != y
    ensures |lb.children| == 5 && lb.children[..2] == [x, y] && lb.batch == []
    ensures lb.watched == Some(lb.children[4])
  {
    lb := new VaeListbar([x, y]);
    lb.Connect();
    assert lb.watched == Some(y);
    var a := lb.GetNewBatchElement(0);
    var b := lb.GetNewBatchElement(0);
    var c := lb.GetNewBatchElement(0);
    var early := lb.SendBatch(4);
    assert early == BelowMinimum && lb.batch == [a, b, c] && lb.watched == Some(y);
    var sent := lb.SendBatch(3);
    assert sent == Sent && lb.children == [x, y, a, b, c];
  }
}
