/**
 * The block list: the set of blocks the intersection observer reports as
 * on screen, and the per-block async flag derived from it.
 */
module BlockList {
  import opened Wrappers

  type ClientId = string

  /**
   * One intersection-observer entry: the observed element's `data-block`
   * attribute (None when the element has none: `getAttribute` gives null)
   * and whether it is intersecting.
   */
  datatype Entry = Entry(target: Option<ClientId>, isIntersecting: bool)

  /** The intersecting-blocks set holds attribute values, null included. */
  type IntersectingSet = set<Option<ClientId>>

  /**
   * Whether `id` is in the set after the batch: the last entry for `id`
   * decides, and without one the old membership stays.
   */
  predicate MemberAfter(before: IntersectingSet, entries: seq<Entry>, id: Option<ClientId>)
    decreases |entries|
  {
    if entries == [] then id in before
    else if entries[|entries| - 1].target == id then entries[|entries| - 1].isIntersecting
    else MemberAfter(before, entries[..|entries| - 1], id)
  }

  /**
   * The observer callback's updater: copy the old set, then add or delete
   * each entry's client id in batch order. The old set is a value and is
   * left as it was.
   */
  method Callback(oldIntersectingBlocks: IntersectingSet, entries: seq<Entry>) returns (newIntersectingBlocks: IntersectingSet)
    ensures forall id :: id in newIntersectingBlocks <==> MemberAfter(oldIntersectingBlocks, entries, id)
  {
    newIntersectingBlocks := oldIntersectingBlocks;
    for i := 0 to |entries|
      invariant forall id :: id in newIntersectingBlocks <==> MemberAfter(oldIntersectingBlocks, entries[..i], id)
    {
      var entry := entries[i];
      assert entries[..i + 1][..i] == entries[..i];
      if entry.isIntersecting {
        newIntersectingBlocks := newIntersectingBlocks + {entry.target};
      } else {
        newIntersectingBlocks := newIntersectingBlocks - {entry.target};
      }
    }
    assert entries[..|entries|] == entries;
  }

  /** A client id no entry mentions keeps its membership. */
  lemma {:induction false} UnmentionedKeepsMembership(before: IntersectingSet, entries: seq<Entry>, id: Option<ClientId>)
    requires forall i :: 0 <= i < |entries| ==> entries[i].target != id
    ensures MemberAfter(before, entries, id) == (id in before)
    decreases |entries|
  {
    if entries != [] {
      UnmentionedKeepsMembership(before, entries[..|entries| - 1], id);
    }
  }

  /** The last entry for a client id decides its membership. */
  lemma {:induction false} LastEntryDecides(before: IntersectingSet, entries: seq<Entry>, i: nat, id: Option<ClientId>)
    requires i < |entries| && entries[i].target == id
    requires forall j :: i < j < |entries| ==> entries[j].target != id
    ensures MemberAfter(before, entries, id) == entries[i].isIntersecting
    decreases |entries|
  {
    if i < |entries| - 1 {
      LastEntryDecides(before, entries[..|entries| - 1], i, id);
    }
  }

  /** The entries that carry a `data-block` attribute. */
  function WithTarget(entries: seq<Entry>): (r: seq<Entry>)
    ensures forall i :: 0 <= i < |r| ==> r[i].target.Some?
    decreases |entries|
  {
    if entries == [] then []
    else if entries[|entries| - 1].target.Some? then WithTarget(entries[..|entries| - 1]) + [entries[|entries| - 1]]
    else WithTarget(entries[..|entries| - 1])
  }

  /** Entries without a `data-block` attribute change no block's membership. */
  lemma {:induction false} EntriesWithoutTargetIgnored(before: IntersectingSet, entries: seq<Entry>, clientId: ClientId)
    ensures MemberAfter(before, entries, Some(clientId)) == MemberAfter(before, WithTarget(entries), Some(clientId))
    decreases |entries|
  {
    if entries != [] {
      var init, last := entries[..|entries| - 1], entries[|entries| - 1];
      EntriesWithoutTargetIgnored(before, init, clientId);
      if last.target.Some? {
        var w := WithTarget(init) + [last];
        assert w[..|w| - 1] == WithTarget(init);
      }
    }
  }

  /** A block renders in async mode exactly when it is not in the intersecting set. */
  predicate IsAsync(intersecting: IntersectingSet, clientId: ClientId)
  {
    Some(clientId) !in intersecting
  }

  /** One rendered block: its client id, its position and its async flag. */
  datatype BlockItem = BlockItem(clientId: ClientId, index: nat, asyncMode: bool)

  /** What `Items` renders: the blocks, then the placeholder when there are none. */
  datatype ItemsView = ItemsView(blocks: seq<BlockItem>, showsPlaceholder: bool)

  /**
   * `Items`: `order.map(...)` over the store's block order. Blocks render in
   * the store's order, each with its position, in async mode exactly when it
   * is not intersecting; the placeholder shows exactly when the order is empty.
   */
  function Items(order: seq<ClientId>, intersecting: IntersectingSet): (v: ItemsView)
    ensures |v.blocks| == |order|
    ensures forall i :: 0 <= i < |order| ==>
      && v.blocks[i].clientId == order[i]
      && v.blocks[i].index == i
      && (v.blocks[i].asyncMode <==> Some(order[i]) !in intersecting)
    ensures v.showsPlaceholder <==> order == []
  {
    ItemsView(
      seq(|order|, i requires 0 <= i < |order| => BlockItem(order[i], i, IsAsync(intersecting, order[i]))),
      |order| < 1)
  }

  /**
   * After a batch, the block at position `i` renders in async mode exactly
   * when its last entry in the batch reports it as not intersecting, or,
   * with no entry for it, when it was async before.
   */
  lemma AsyncAfterBatch(before: IntersectingSet, entries: seq<Entry>, after: IntersectingSet, order: seq<ClientId>, i: nat)
    requires forall id :: id in after <==> MemberAfter(before, entries, id)
    requires i < |order|
    ensures (forall j :: 0 <= j < |entries| ==> entries[j].target != Some(order[i])) ==>
      Items(order, after).blocks[i].asyncMode == Items(order, before).blocks[i].asyncMode
    ensures forall j :: 0 <= j < |entries| ==>
      ((entries[j].target == Some(order[i]) && forall k :: j < k < |entries| ==> entries[k].target != Some(order[i])) ==>
        Items(order, after).blocks[i].asyncMode == !entries[j].isIntersecting)
  {
    var id := Some(order[i]);
    if forall j :: 0 <= j < |entries| ==> entries[j].target != id {
      UnmentionedKeepsMembership(before, entries, id);
    }
    forall j | 0 <= j < |entries| && entries[j].target == id && (forall k :: j < k < |entries| ==> entries[k].target != id)
      ensures Items(order, after).blocks[i].asyncMode == !entries[j].isIntersecting
    {
      LastEntryDecides(before, entries, j, id);
    }
  }

  /** With the initial empty set, every block renders in async mode. */
  lemma EmptySetAllAsync(order: seq<ClientId>)
    ensures forall i :: 0 <= i < |order| ==> Items(order, {}).blocks[i].asyncMode
  {
  }

  /** An `AsyncModeProvider` around rendered items. */
  datatype AsyncModeProvider = AsyncModeProvider(value: bool, items: ItemsView)

  /** `BlockListItems`: `Items` inside a synchronous provider. */
  function BlockListItems(order: seq<ClientId>, intersecting: IntersectingSet): (r: AsyncModeProvider)
    ensures r.value == false
    ensures r.items == Items(order, intersecting)
  {
    AsyncModeProvider(false, Items(order, intersecting))
  }

  /** The flags the root container reads from the editor settings. */
  datatype Modes = Modes(isTyping: bool, isOutlineMode: bool, isFocusMode: bool, isLargeViewport: bool, isNavigationMode: bool)

  /**
   * The arguments of the root container's `classnames(...)` call that take
   * effect, in order: the fixed layout classes, the caller's `className` when
   * truthy, and each mode class whose condition holds. `classnames` joins
   * these with spaces; the caller's `className` may itself hold several
   * class names.
   */
  function LayoutClassNames(className: Option<string>, m: Modes): (r: seq<string>)
    ensures ("is-focus-mode" in r) <==> (m.isFocusMode && m.isLargeViewport) || className == Some("is-focus-mode")
    ensures |r| > 0 && r[0] == "block-editor-block-list__layout is-root-container"
  {
    ["block-editor-block-list__layout is-root-container"]
    + (if className.Some? && className.value != "" then [className.value] else [])
    + (if m.isTyping then ["is-typing"] else [])
    + (if m.isOutlineMode then ["is-outline-mode"] else [])
    + (if m.isFocusMode && m.isLargeViewport then ["is-focus-mode"] else [])
    + (if m.isNavigationMode then ["is-navigate-mode"] else [])
  }

  /** The list component's own state: the intersecting set and whether an observer exists. */
  class BlockListState {
    var intersectingBlocks: IntersectingSet
    var hasObserver: bool

    /** Without an observer nothing ever leaves the initial empty set. */
    ghost predicate Valid()
      reads this
    {
      !hasObserver ==> intersectingBlocks == {}
    }

    /** `useState()` and `useState( new Set() )`. */
    constructor ()
      ensures Valid() && intersectingBlocks == {} && !hasObserver
    {
      intersectingBlocks := {};
      hasObserver := false;
    }

    /**
     * The ref callback, once the container is mounted: an observer is made
     * only when the window provides `IntersectionObserver`.
     */
    method AttachContainer(windowHasObserver: bool)
      requires Valid()
      modifies this
      ensures Valid()
      ensures hasObserver == (old(hasObserver) || windowHasObserver)
      ensures intersectingBlocks == old(intersectingBlocks)
    {
      if !windowHasObserver {
        return;
      }
      hasObserver := true;
    }

    /** The observer delivers a batch: the set is replaced by the updated copy. */
    method OnIntersection(entries: seq<Entry>)
      requires Valid() && hasObserver
      modifies this`intersectingBlocks
      ensures Valid()
      ensures forall id :: id in intersectingBlocks <==> MemberAfter(old(intersectingBlocks), entries, id)
    {
      intersectingBlocks := Callback(intersectingBlocks, entries);
    }
  }

  /** Without an observer every block of every order renders in async mode. */
  lemma NoObserverAllAsync(s: BlockListState, order: seq<ClientId>)
    requires s.Valid() && !s.hasObserver
    ensures forall i :: 0 <= i < |order| ==> Items(order, s.intersectingBlocks).blocks[i].asyncMode
  {
  }
}
