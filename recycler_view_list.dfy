/** The synchronisation logic of the Android `RecyclerView` list component:
    the visible window, the item count reported to the native view, the
    dirty tracking that decides which items re-render, and the structural
    commands sent to the native view when the data source changes.

    The pure part (below, up to the class) gives every transition of the
    component as a function over a `ListState`; the class `RecyclerView`
    holds the same state in fields and each of its methods is proved to
    perform exactly the corresponding transition. */
module RecyclerViewList {

  import opened Wrappers

  function Min(a: int, b: int): int { if a <= b then a else b }

  function Max(a: int, b: int): int { if a >= b then a else b }

  // ---------------------------------------------------------------------
  // Data model
  // ---------------------------------------------------------------------

  /** The data source as the component observes it at one instant: its
      items in order and the key function its owner supplied. How it
      mutates itself is not part of this model. */
  datatype DataSource<!T, K> = DataSource(items: seq<T>, getKey: (T, int) -> K)
  {
    function Size(): nat { |items| }

    function Get(index: int): T
      requires 0 <= index < |items|
    {
      items[index]
    }

    function GetKey(item: T, index: int): K { getKey(item, index) }
  }

  /** A command dispatched to the native view. */
  datatype Command =
    | ItemRangeInserted(position: int, count: int)
    | ItemRangeRemoved(position: int, count: int)
    | ItemMoved(currentPosition: int, nextPosition: int)
    | DataSetChanged(itemCount: int)
    | ScrollTo(animated: bool, index: int)
    | RefreshCompleted
    | LoadMoreCompleted

  /** The component's props that drive its logic. `initialScrollIndex` is
      `None` when the prop is not given. */
  datatype Config = Config(initialListSize: int, windowSize: int, initialScrollIndex: Option<int>)

  /** The visible window `[firstVisibleIndex, lastVisibleIndex]`. */
  datatype Window = Window(first: int, last: int)

  /** Everything the component's logic keeps: `window` and `itemCount` are
      its React state, `updateAll` and `updateKeys` its dirty tracking,
      `log` the commands sent to the native view, and the two counters the
      `forceUpdate()` calls made at once and those deferred by a timer. */
  datatype ListState<K> = ListState(
    window: Window,
    itemCount: int,
    updateAll: bool,
    updateKeys: seq<K>,
    log: seq<Command>,
    forcedRenders: nat,
    deferredRenders: nat)

  /** A data-source event, as delivered to the component's listener. `Set`
      carries the key the changed item has at its index. */
  datatype Event<K> =
    | Unshift
    | Push
    | MoveUp(position: int)
    | MoveDown(position: int)
    | Splice(start: int, deleteCount: int, insertedCount: nat)
    | Set(key: K)
    | SetDirty

  /** An event together with the size of the data source when it is delivered. */
  datatype Notification<K> = Notification(event: Event<K>, size: nat)

  // ---------------------------------------------------------------------
  // What is rendered
  // ---------------------------------------------------------------------

  /** The half-open range `[from, to)` of item indices to render. */
  datatype ItemRange = ItemRange(from: int, to: int)
  {
    predicate Contains(i: int) { from <= i < to }
  }

  /** The visible window widened by `windowSize` on each side and cut to the
      items that exist. The end is not cut at 0, so an inverted window can
      give `to < from` (and then nothing is rendered). */
  function CalcItemRangeToRender(first: int, last: int, windowSize: int, count: nat): (r: ItemRange)
    ensures 0 <= r.from <= count && r.to <= count
    ensures first <= last && windowSize >= 0 && last + windowSize >= 0 ==> r.from <= r.to
    ensures forall i {:trigger r.Contains(i)} ::
      r.Contains(i) <==> 0 <= i < count && first - windowSize <= i < last + windowSize
  {
    ItemRange(Min(count, Max(0, first - windowSize)), Min(count, last + windowSize))
  }

  /** A wider overscan never renders fewer items. */
  lemma RenderRangeMonotone(first: int, last: int, w1: int, w2: int, count: nat)
    requires w1 <= w2
    ensures CalcItemRangeToRender(first, last, w2, count).from <= CalcItemRangeToRender(first, last, w1, count).from
    ensures CalcItemRangeToRender(first, last, w1, count).to <= CalcItemRangeToRender(first, last, w2, count).to
  {
  }

  /** An item must re-render when everything is dirty or its key was marked. */
  function NeedsItemUpdate<K(==)>(s: ListState<K>, itemKey: K): (b: bool)
    ensures b <==> s.updateAll || exists j :: 0 <= j < |s.updateKeys| && s.updateKeys[j] == itemKey
  {
    s.updateAll || itemKey in s.updateKeys
  }

  /** The props of one rendered item that decide whether it re-renders. */
  datatype ItemProps = ItemProps(itemIndex: int, shouldUpdate: bool)

  /** `RecyclerViewItem` re-renders when it moved to another index or was
      marked for update, and reuses its output otherwise. */
  function ShouldComponentUpdate(props: ItemProps, nextProps: ItemProps): (b: bool)
    ensures b <==> nextProps.itemIndex != props.itemIndex || nextProps.shouldUpdate
  {
    nextProps.itemIndex != props.itemIndex || nextProps.shouldUpdate
  }

  /** One element of the rendered body: an item, or the placeholder shown
      for an empty list. */
  datatype Element<K> =
    | Item(key: K, itemIndex: int, shouldUpdate: bool)
    | EmptyPlaceholder
  {
    function Props(): ItemProps
    {
      match this
      case Item(_, i, u) => ItemProps(i, u)
      case EmptyPlaceholder => ItemProps(0, true)
    }
  }

  /** After a commit no key needs an update. */
  lemma CommitClearsDirty<K>(s: ListState<K>, key: K)
    ensures !NeedsItemUpdate(CommitStep(s), key)
  {
  }

  /** After a commit, an item rendered at the index it had before is reused,
      and one rendered at another index is rebuilt. */
  lemma CommittedItemsAreReused<K>(s: ListState<K>, key: K, previous: ItemProps, index: int)
    ensures ShouldComponentUpdate(previous, ItemProps(index, NeedsItemUpdate(CommitStep(s), key)))
        <==> index != previous.itemIndex
  {
  }

  // ---------------------------------------------------------------------
  // Transitions
  // ---------------------------------------------------------------------

  /** The state built by the constructor: the window starts at a
      non-negative `initialScrollIndex`, or at 0, and spans
      `initialListSize`; everything is dirty. */
  function InitialState<K>(config: Config, size: nat): (s: ListState<K>)
    ensures s.window.last - s.window.first == config.initialListSize
    ensures s.window.first == (if config.initialScrollIndex.Some? && config.initialScrollIndex.value >= 0
                               then config.initialScrollIndex.value else 0)
    ensures s.itemCount == size
    ensures s.updateAll && s.updateKeys == []
    ensures s.log == [] && s.forcedRenders == 0 && s.deferredRenders == 0
  {
    var first := match config.initialScrollIndex
      case Some(i) => if i >= 0 then i else 0
      case None => 0;
    ListState(Window(first, first + config.initialListSize), size, true, [], [], 0, 0)
  }

  /** A render commit clears the dirty tracking and nothing else. */
  function CommitStep<K>(s: ListState<K>): (t: ListState<K>)
    ensures !t.updateAll && t.updateKeys == []
    ensures t.window == s.window && t.itemCount == s.itemCount && t.log == s.log
    ensures t.forcedRenders == s.forcedRenders && t.deferredRenders == s.deferredRenders
  {
    s.(updateAll := false, updateKeys := [])
  }

  /** `notifyItemRangeInserted`: dispatches the command, then adjusts the
      window. An empty list (by the state's count) restarts the window and
      takes the data source's size; otherwise an insertion at or before the
      window start pushes the window forward, and one after it schedules a
      deferred re-render. */
  function InsertRangeStep<K>(s: ListState<K>, position: int, count: int, size: nat, config: Config): ListState<K>
  {
    var logged := s.(log := s.log + [ItemRangeInserted(position, count)]);
    if s.itemCount == 0 then
      logged.(itemCount := size, window := Window(0, config.initialListSize))
    else if position <= s.window.first then
      logged.(window := Window(s.window.first + count, s.window.last + count))
    else
      logged.(deferredRenders := s.deferredRenders + 1)
  }

  /** `notifyItemRangeRemoved`: dispatches the command and forces a render. */
  function RemoveRangeStep<K>(s: ListState<K>, position: int, count: int): ListState<K>
  {
    s.(log := s.log + [ItemRangeRemoved(position, count)], forcedRenders := s.forcedRenders + 1)
  }

  /** `notifyItemMoved`: dispatches the command and forces a render. */
  function MoveStep<K>(s: ListState<K>, currentPosition: int, nextPosition: int): ListState<K>
  {
    s.(log := s.log + [ItemMoved(currentPosition, nextPosition)], forcedRenders := s.forcedRenders + 1)
  }

  /** `notifyDataSetChanged`: dispatches the command and takes the new count. */
  function DataSetChangedStep<K>(s: ListState<K>, itemCount: int): ListState<K>
  {
    s.(log := s.log + [DataSetChanged(itemCount)], itemCount := itemCount)
  }

  /** The listener's reaction to one data-source event; `size` is the data
      source's size when the event is delivered. */
  function EventStep<K>(s: ListState<K>, e: Event<K>, size: nat, config: Config): ListState<K>
  {
    match e
    case Unshift => InsertRangeStep(s, 0, 1, size, config).(updateAll := true)
    case Push => InsertRangeStep(s, size, 1, size, config).(updateAll := true)
    case MoveUp(p) => MoveStep(s, p, p - 1).(updateAll := true)
    case MoveDown(p) => MoveStep(s, p, p + 1).(updateAll := true)
    case Splice(start, deleteCount, n) =>
      var removed := if deleteCount > 0 then RemoveRangeStep(s, start, deleteCount) else s;
      var inserted := if n > 0 then InsertRangeStep(removed, start, n, size, config) else removed;
      inserted.(updateAll := true)
    case Set(key) => s.(updateKeys := s.updateKeys + [key], forcedRenders := s.forcedRenders + 1)
    case SetDirty => s.(updateAll := true, forcedRenders := s.forcedRenders + 1)
  }

  /** The index `scrollToIndex` scrolls to: the requested one, clamped to the
      existing items (to 0 for an empty list). */
  function ClampIndex(index: int, size: nat): (r: int)
    ensures 0 <= r && (size > 0 ==> r < size) && (size == 0 ==> r == 0)
    ensures 0 <= index < size ==> r == index
    ensures index < 0 ==> r == 0
    ensures size > 0 && index >= size ==> r == size - 1
  {
    Max(0, Min(index, size - 1))
  }

  /** `scrollToIndex`: an animated scroll only dispatches the command; a
      jump first moves the window to the clamped index, keeping its width. */
  function ScrollStep<K>(s: ListState<K>, animated: bool, index: int, size: nat): ListState<K>
  {
    var i := ClampIndex(index, size);
    if animated then
      s.(log := s.log + [ScrollTo(true, i)])
    else
      s.(window := Window(i, i + (s.window.last - s.window.first)), log := s.log + [ScrollTo(false, i)])
  }

  /** `scrollToEnd`: a scroll to the last item. */
  function ScrollToEndStep<K>(s: ListState<K>, animated: bool, size: nat): ListState<K>
  {
    ScrollStep(s, animated, size - 1, size)
  }

  /** `componentDidMount`: jumps to a truthy (given, non-zero)
      `initialScrollIndex`, then commits. */
  function MountStep<K>(s: ListState<K>, config: Config, size: nat): ListState<K>
  {
    var scrolled := match config.initialScrollIndex
      case Some(i) => if i != 0 then ScrollStep(s, false, i, size) else s
      case None => s;
    CommitStep(scrolled)
  }

  /** `componentWillReceiveProps`: a replaced data source resets the native
      view to the new source's size. */
  function ReceivePropsStep<K>(s: ListState<K>, replaced: bool, nextSize: nat): ListState<K>
  {
    if replaced then DataSetChangedStep(s, nextSize) else s
  }

  /** `_handleVisibleItemsChange`: the native view's report overwrites the window. */
  function VisibleItemsStep<K>(s: ListState<K>, firstIndex: int, lastIndex: int): ListState<K>
  {
    s.(window := Window(firstIndex, lastIndex))
  }

  // ---------------------------------------------------------------------
  // Properties of single transitions
  // ---------------------------------------------------------------------

  /** Reference table of the commands each event dispatches. */
  function EventCommands<K>(e: Event<K>, size: nat): seq<Command>
  {
    match e
    case Unshift => [ItemRangeInserted(0, 1)]
    case Push => [ItemRangeInserted(size, 1)]
    case MoveUp(p) => [ItemMoved(p, p - 1)]
    case MoveDown(p) => [ItemMoved(p, p + 1)]
    case Splice(start, deleteCount, n) =>
      (if deleteCount > 0 then [ItemRangeRemoved(start, deleteCount)] else [])
      + (if n > 0 then [ItemRangeInserted(start, n)] else [])
    case Set(_) => []
    case SetDirty => []
  }

  /** Every event appends exactly its commands to the log. */
  lemma EventStepLog<K>(s: ListState<K>, e: Event<K>, size: nat, config: Config)
    ensures EventStep(s, e, size, config).log == s.log + EventCommands(e, size)
  {
  }

  /** Every event except `Set` marks everything dirty; `Set` leaves the flag alone. */
  lemma EventStepUpdateAll<K>(s: ListState<K>, e: Event<K>, size: nat, config: Config)
    ensures EventStep(s, e, size, config).updateAll == (s.updateAll || !e.Set?)
  {
  }

  /** The single-item events each dispatch exactly one command. */
  lemma SingleItemEvents<K>(s: ListState<K>, p: int, size: nat, config: Config)
    ensures EventStep(s, Unshift, size, config).log == s.log + [ItemRangeInserted(0, 1)]
    ensures EventStep(s, Push, size, config).log == s.log + [ItemRangeInserted(size, 1)]
    ensures EventStep(s, MoveUp(p), size, config).log == s.log + [ItemMoved(p, p - 1)]
    ensures EventStep(s, MoveDown(p), size, config).log == s.log + [ItemMoved(p, p + 1)]
    ensures EventStep(s, MoveUp(p), size, config).forcedRenders == s.forcedRenders + 1
    ensures EventStep(s, MoveDown(p), size, config).forcedRenders == s.forcedRenders + 1
  {
  }

  /** A splice dispatches the removal (if any) before the insertion (if
      any), nothing when both are empty, and always marks everything dirty. */
  lemma SpliceCommands<K>(s: ListState<K>, start: int, deleteCount: int, n: nat, size: nat, config: Config)
    ensures var t := EventStep(s, Splice(start, deleteCount, n), size, config);
      && t.updateAll
      && |t.log| == |s.log| + (if deleteCount > 0 then 1 else 0) + (if n > 0 then 1 else 0)
      && t.log[..|s.log|] == s.log
      && (deleteCount > 0 ==> t.log[|s.log|] == ItemRangeRemoved(start, deleteCount))
      && (n > 0 ==> t.log[|t.log| - 1] == ItemRangeInserted(start, n))
      && (deleteCount <= 0 && n == 0 ==> t == s.(updateAll := true))
  {
  }

  /** `Set` marks exactly the new key, dispatches nothing, keeps the window
      and the dirty flag, and forces one render. */
  lemma SetEvent<K>(s: ListState<K>, key: K, size: nat, config: Config)
    ensures var t := EventStep(s, Set(key), size, config);
      && (forall k :: NeedsItemUpdate(t, k) <==> NeedsItemUpdate(s, k) || k == key)
      && t.log == s.log && t.window == s.window && t.updateAll == s.updateAll
      && t.itemCount == s.itemCount
      && t.forcedRenders == s.forcedRenders + 1 && t.deferredRenders == s.deferredRenders
  {
    var t := EventStep(s, Set(key), size, config);
    forall k ensures NeedsItemUpdate(t, k) <==> NeedsItemUpdate(s, k) || k == key {
      if k == key {
        assert t.updateKeys[|s.updateKeys|] == key;
      }
      if k in s.updateKeys {
        var j :| 0 <= j < |s.updateKeys| && s.updateKeys[j] == k;
        assert t.updateKeys[j] == k;
      }
    }
  }

  /** The window-shift rule of an insertion. */
  lemma InsertRangeWindow<K>(s: ListState<K>, position: int, count: int, size: nat, config: Config)
    ensures var t := InsertRangeStep(s, position, count, size, config);
      && t.log == s.log + [ItemRangeInserted(position, count)]
      && t.updateAll == s.updateAll && t.updateKeys == s.updateKeys
      && t.forcedRenders == s.forcedRenders
      && (s.itemCount == 0 ==>
            t.window == Window(0, config.initialListSize) && t.itemCount == size
            && t.deferredRenders == s.deferredRenders)
      && (s.itemCount != 0 ==> t.itemCount == s.itemCount)
      && (s.itemCount != 0 && position <= s.window.first ==>
            t.window.first - count == s.window.first && t.window.last - count == s.window.last
            && t.deferredRenders == s.deferredRenders)
      && (s.itemCount != 0 && position > s.window.first ==>
            t.window == s.window && t.deferredRenders == s.deferredRenders + 1)
  {
  }

  /** A removal never moves the window nor changes the reported count. */
  lemma RemoveRangeKeepsWindow<K>(s: ListState<K>, position: int, count: int)
    ensures var t := RemoveRangeStep(s, position, count);
      t.window == s.window && t.itemCount == s.itemCount
      && t.log == s.log + [ItemRangeRemoved(position, count)]
      && t.forcedRenders == s.forcedRenders + 1
  {
  }

  /** The visibility callback sets exactly the reported window. */
  lemma VisibleItemsSetsWindow<K>(s: ListState<K>, firstIndex: int, lastIndex: int)
    ensures var t := VisibleItemsStep(s, firstIndex, lastIndex);
      t.window.first == firstIndex && t.window.last == lastIndex
      && t == s.(window := t.window)
  {
  }

  /** Only an insertion into a list whose reported count is 0 changes the
      reported count; it then takes the data source's size. */
  lemma EventStepItemCount<K>(s: ListState<K>, e: Event<K>, size: nat, config: Config)
    ensures EventStep(s, e, size, config).itemCount ==
      if s.itemCount == 0 && (e.Unshift? || e.Push? || (e.Splice? && e.insertedCount > 0))
      then size else s.itemCount
  {
  }

  /** `notifyDataSetChanged` dispatches its command and takes the new count,
      leaving the window, the dirty tracking and the render counters alone;
      a props update dispatches it only for a replaced data source. */
  lemma DataSetChangedResetsCount<K>(s: ListState<K>, itemCount: int, replaced: bool, nextSize: nat)
    ensures var t := DataSetChangedStep(s, itemCount);
      && t.log == s.log + [DataSetChanged(itemCount)]
      && t.itemCount == itemCount
      && t.window == s.window && t.updateAll == s.updateAll && t.updateKeys == s.updateKeys
      && t.forcedRenders == s.forcedRenders && t.deferredRenders == s.deferredRenders
    ensures var t := ReceivePropsStep(s, replaced, nextSize);
      replaced ==> t.log == s.log + [DataSetChanged(nextSize)] && t.itemCount == nextSize
    ensures !replaced ==> ReceivePropsStep(s, replaced, nextSize) == s
  {
  }

  /** The reported count changes in two places only: the empty-list branch
      of an insertion, and `notifyDataSetChanged`. Every other transition
      keeps it. */
  lemma ItemCountChangesInTwoPlaces<K>(s: ListState<K>, position: int, count: int, size: nat,
                                      config: Config, itemCount: int, animated: bool,
                                      firstIndex: int, lastIndex: int)
    ensures InsertRangeStep(s, position, count, size, config).itemCount
         == (if s.itemCount == 0 then size else s.itemCount)
    ensures DataSetChangedStep(s, itemCount).itemCount == itemCount
    ensures RemoveRangeStep(s, position, count).itemCount == s.itemCount
    ensures MoveStep(s, position, count).itemCount == s.itemCount
    ensures ScrollStep(s, animated, position, size).itemCount == s.itemCount
    ensures ScrollToEndStep(s, animated, size).itemCount == s.itemCount
    ensures VisibleItemsStep(s, firstIndex, lastIndex).itemCount == s.itemCount
    ensures CommitStep(s).itemCount == s.itemCount
    ensures MountStep(s, config, size).itemCount == s.itemCount
  {
  }

  /** A jump keeps the window's width and starts it at the clamped index; an
      animated scroll leaves the window alone. Either way one scroll command
      for the clamped index is dispatched. */
  lemma ScrollKeepsWidth<K>(s: ListState<K>, animated: bool, index: int, size: nat)
    ensures var t := ScrollStep(s, animated, index, size);
      && t.log == s.log + [ScrollTo(animated, ClampIndex(index, size))]
      && t.window.last - t.window.first == s.window.last - s.window.first
      && (animated ==> t.window == s.window)
      && (!animated ==> t.window.first == ClampIndex(index, size))
      && t.itemCount == s.itemCount && t.updateAll == s.updateAll && t.updateKeys == s.updateKeys
  {
  }

  /** Scrolling to the end targets the last item, or 0 for an empty list. */
  lemma ScrollToEndTargetsLast<K>(s: ListState<K>, animated: bool, size: nat)
    ensures var t := ScrollToEndStep(s, animated, size);
      t.log == s.log + [ScrollTo(animated, if size == 0 then 0 else size - 1)]
  {
  }

  /** After mounting nothing is dirty; the window is moved only for a
      non-zero `initialScrollIndex`. */
  lemma MountClearsDirty<K>(s: ListState<K>, config: Config, size: nat)
    ensures var t := MountStep(s, config, size);
      && (forall k :: !NeedsItemUpdate(t, k))
      && t.itemCount == s.itemCount
      && (config.initialScrollIndex.None? || config.initialScrollIndex.value == 0 ==> t.window == s.window && t.log == s.log)
      && (config.initialScrollIndex.Some? && config.initialScrollIndex.value != 0 ==>
            t.window.first == ClampIndex(config.initialScrollIndex.value, size)
            && t.log == s.log + [ScrollTo(false, ClampIndex(config.initialScrollIndex.value, size))])
  {
  }

  // ---------------------------------------------------------------------
  // Properties of event sequences
  // ---------------------------------------------------------------------

  /** The state after the listener has handled each notification in turn. */
  function Replay<K>(s: ListState<K>, ns: seq<Notification<K>>, config: Config): ListState<K>
    decreases |ns|
  {
    if ns == [] then s
    else Replay(EventStep(s, ns[0].event, ns[0].size, config), ns[1..], config)
  }

  /** The commands the notifications dispatch, in order. */
  function ReplayCommands<K>(ns: seq<Notification<K>>): seq<Command>
    decreases |ns|
  {
    if ns == [] then [] else EventCommands(ns[0].event, ns[0].size) + ReplayCommands(ns[1..])
  }

  /** The keys the `Set` notifications mark, in order. */
  function ReplayKeys<K>(ns: seq<Notification<K>>): seq<K>
    decreases |ns|
  {
    if ns == [] then []
    else (if ns[0].event.Set? then [ns[0].event.key] else []) + ReplayKeys(ns[1..])
  }

  /** Commands reach the native view in the order of the events. */
  lemma {:induction false} ReplayLog<K>(s: ListState<K>, ns: seq<Notification<K>>, config: Config)
    ensures Replay(s, ns, config).log == s.log + ReplayCommands(ns)
    decreases |ns|
  {
    if ns != [] {
      var t := EventStep(s, ns[0].event, ns[0].size, config);
      EventStepLog(s, ns[0].event, ns[0].size, config);
      ReplayLog(t, ns[1..], config);
      assert s.log + EventCommands(ns[0].event, ns[0].size) + ReplayCommands(ns[1..])
          == s.log + (EventCommands(ns[0].event, ns[0].size) + ReplayCommands(ns[1..]));
    }
  }

  /** Between two commits the dirty keys only grow: they are the old keys
      followed by the key of every `Set`, in order. */
  lemma {:induction false} ReplayDirtyKeys<K>(s: ListState<K>, ns: seq<Notification<K>>, config: Config)
    ensures Replay(s, ns, config).updateKeys == s.updateKeys + ReplayKeys(ns)
    decreases |ns|
  {
    if ns != [] {
      var t := EventStep(s, ns[0].event, ns[0].size, config);
      assert t.updateKeys == s.updateKeys + (if ns[0].event.Set? then [ns[0].event.key] else []);
      ReplayDirtyKeys(t, ns[1..], config);
      assert s.updateKeys + (if ns[0].event.Set? then [ns[0].event.key] else []) + ReplayKeys(ns[1..])
          == s.updateKeys + ((if ns[0].event.Set? then [ns[0].event.key] else []) + ReplayKeys(ns[1..]));
    }
  }

  /** Between two commits everything is dirty exactly when it was before or
      some event other than `Set` arrived. */
  lemma {:induction false} ReplayUpdateAll<K>(s: ListState<K>, ns: seq<Notification<K>>, config: Config)
    ensures Replay(s, ns, config).updateAll <==> s.updateAll || exists j :: 0 <= j < |ns| && !ns[j].event.Set?
    decreases |ns|
  {
    if ns != [] {
      var t := EventStep(s, ns[0].event, ns[0].size, config);
      EventStepUpdateAll(s, ns[0].event, ns[0].size, config);
      ReplayUpdateAll(t, ns[1..], config);
      if exists j :: 0 <= j < |ns| && !ns[j].event.Set? {
        var j :| 0 <= j < |ns| && !ns[j].event.Set?;
        if j > 0 {
          assert ns[1..][j - 1] == ns[j];
        }
      }
      if exists j :: 0 <= j < |ns[1..]| && !ns[1..][j].event.Set? {
        var j :| 0 <= j < |ns[1..]| && !ns[1..][j].event.Set?;
        assert ns[j + 1] == ns[1..][j];
      }
    }
  }

  /** Once the reported count is non-zero, no listener event changes it:
      ordinary inserts and removals leave it stale. */
  lemma {:induction false} ReplayKeepsItemCount<K>(s: ListState<K>, ns: seq<Notification<K>>, config: Config)
    requires s.itemCount != 0
    ensures Replay(s, ns, config).itemCount == s.itemCount
    decreases |ns|
  {
    if ns != [] {
      EventStepItemCount(s, ns[0].event, ns[0].size, config);
      ReplayKeepsItemCount(EventStep(s, ns[0].event, ns[0].size, config), ns[1..], config);
    }
  }

  /** After a commit and then the events `ns`, an item needs an update
      exactly when some event other than `Set` arrived or a `Set` marked its
      key. */
  lemma NeedsUpdateAfterEvents<K>(s: ListState<K>, ns: seq<Notification<K>>, config: Config, key: K)
    ensures NeedsItemUpdate(Replay(CommitStep(s), ns, config), key)
        <==> (exists j :: 0 <= j < |ns| && !ns[j].event.Set?) || key in ReplayKeys(ns)
  {
    ReplayDirtyKeys(CommitStep(s), ns, config);
    ReplayUpdateAll(CommitStep(s), ns, config);
  }

  /** In the render pass after a commit and the events `ns`, an item is
      rebuilt exactly when it moved to another index, some event other than
      `Set` arrived, or a `Set` marked its key; otherwise its output is
      reused. */
  lemma RerenderAfterEvents<K>(s: ListState<K>, ns: seq<Notification<K>>, config: Config,
                               key: K, previous: ItemProps, index: int)
    ensures ShouldComponentUpdate(previous, ItemProps(index, NeedsItemUpdate(Replay(CommitStep(s), ns, config), key)))
        <==> index != previous.itemIndex
             || (exists j :: 0 <= j < |ns| && !ns[j].event.Set?)
             || key in ReplayKeys(ns)
  {
    NeedsUpdateAfterEvents(s, ns, config, key);
  }

  // ---------------------------------------------------------------------
  // The component
  // ---------------------------------------------------------------------

  /** The list component. Its fields are the state above; each method
      performs the transition of the same name on it. */
  class RecyclerView<T, K(==)> {
    const config: Config
    var firstVisibleIndex: int
    var lastVisibleIndex: int
    var itemCount: int
    var shouldUpdateAll: bool
    var shouldUpdateKeys: seq<K>
    var commands: seq<Command>
    var forcedRenders: nat
    var deferredRenders: nat

    /** The fields viewed as a `ListState`. */
    function State(): ListState<K>
      reads this
    {
      ListState(Window(firstVisibleIndex, lastVisibleIndex), itemCount, shouldUpdateAll,
                shouldUpdateKeys, commands, forcedRenders, deferredRenders)
    }

    constructor (ds: DataSource<T, K>, config: Config)
      ensures this.config == config
      ensures State() == InitialState(config, ds.Size())
    {
      this.config := config;
      var initial: ListState<K> := InitialState(config, ds.Size());
      firstVisibleIndex := initial.window.first;
      lastVisibleIndex := initial.window.last;
      itemCount := initial.itemCount;
      shouldUpdateAll := initial.updateAll;
      shouldUpdateKeys := initial.updateKeys;
      commands := initial.log;
      forcedRenders := initial.forcedRenders;
      deferredRenders := initial.deferredRenders;
    }

    method DidMount(ds: DataSource<T, K>)
      modifies this
      ensures State() == MountStep(old(State()), config, ds.Size())
    {
      match config.initialScrollIndex {
        case Some(i) =>
          if i != 0 {
            ScrollToIndex(ds, false, i);
          }
        case None =>
      }
      shouldUpdateAll := false;
      shouldUpdateKeys := [];
    }

    method DidUpdate()
      modifies this
      ensures State() == CommitStep(old(State()))
    {
      shouldUpdateAll := false;
      shouldUpdateKeys := [];
    }

    /** `replaced` tells whether the new props carry another data source object. */
    method WillReceiveProps(replaced: bool, next: DataSource<T, K>)
      modifies this
      ensures State() == ReceivePropsStep(old(State()), replaced, next.Size())
    {
      if replaced {
        NotifyDataSetChanged(next.Size());
      }
    }

    // The data-source listener.

    method OnUnshift(ds: DataSource<T, K>)
      modifies this
      ensures State() == EventStep(old(State()), Unshift, ds.Size(), config)
    {
      NotifyItemRangeInserted(ds, 0, 1);
      shouldUpdateAll := true;
    }

    method OnPush(ds: DataSource<T, K>)
      modifies this
      ensures State() == EventStep(old(State()), Push, ds.Size(), config)
    {
      NotifyItemRangeInserted(ds, ds.Size(), 1);
      shouldUpdateAll := true;
    }

    method OnMoveUp(position: int)
      modifies this
      ensures forall size: nat :: State() == EventStep(old(State()), MoveUp(position), size, config)
    {
      NotifyItemMoved(position, position - 1);
      shouldUpdateAll := true;
    }

    method OnMoveDown(position: int)
      modifies this
      ensures forall size: nat :: State() == EventStep(old(State()), MoveDown(position), size, config)
    {
      NotifyItemMoved(position, position + 1);
      shouldUpdateAll := true;
    }

    method OnSplice(ds: DataSource<T, K>, start: int, deleteCount: int, items: seq<T>)
      modifies this
      ensures State() == EventStep(old(State()), Splice(start, deleteCount, |items|), ds.Size(), config)
    {
      if deleteCount > 0 {
        NotifyItemRangeRemoved(start, deleteCount);
      }
      if |items| > 0 {
        NotifyItemRangeInserted(ds, start, |items|);
      }
      shouldUpdateAll := true;
    }

    method OnSet(ds: DataSource<T, K>, index: int, item: T)
      modifies this
      ensures State() == EventStep(old(State()), Set(ds.GetKey(item, index)), ds.Size(), config)
    {
      shouldUpdateKeys := shouldUpdateKeys + [ds.GetKey(item, index)];
      forcedRenders := forcedRenders + 1;
    }

    method OnSetDirty()
      modifies this
      ensures forall size: nat :: State() == EventStep(old(State()), SetDirty, size, config)
    {
      shouldUpdateAll := true;
      forcedRenders := forcedRenders + 1;
    }

    // Commands to the native view.

    method ScrollToIndex(ds: DataSource<T, K>, animated: bool, index: int)
      modifies this
      ensures State() == ScrollStep(old(State()), animated, index, ds.Size())
    {
      var i := ClampIndex(index, ds.Size());
      if animated {
        commands := commands + [ScrollTo(animated, i)];
      } else {
        var width := lastVisibleIndex - firstVisibleIndex;
        firstVisibleIndex := i;
        lastVisibleIndex := i + width;
        commands := commands + [ScrollTo(animated, i)];
      }
    }

    method ScrollToEnd(ds: DataSource<T, K>, animated: bool)
      modifies this
      ensures State() == ScrollToEndStep(old(State()), animated, ds.Size())
    {
      ScrollToIndex(ds, animated, ds.Size() - 1);
    }

    method CompleteRefresh()
      modifies this
      ensures State() == old(State()).(log := old(commands) + [RefreshCompleted])
    {
      commands := commands + [RefreshCompleted];
    }

    method CompleteLoadMore()
      modifies this
      ensures State() == old(State()).(log := old(commands) + [LoadMoreCompleted])
    {
      commands := commands + [LoadMoreCompleted];
    }

    method HandleVisibleItemsChange(firstIndex: int, lastIndex: int)
      modifies this
      ensures State() == VisibleItemsStep(old(State()), firstIndex, lastIndex)
    {
      firstVisibleIndex := firstIndex;
      lastVisibleIndex := lastIndex;
    }

    method NotifyItemMoved(currentPosition: int, nextPosition: int)
      modifies this
      ensures State() == MoveStep(old(State()), currentPosition, nextPosition)
    {
      commands := commands + [ItemMoved(currentPosition, nextPosition)];
      forcedRenders := forcedRenders + 1;
    }

    method NotifyItemRangeInserted(ds: DataSource<T, K>, position: int, count: int)
      modifies this
      ensures State() == InsertRangeStep(old(State()), position, count, ds.Size(), config)
    {
      commands := commands + [ItemRangeInserted(position, count)];
      if itemCount == 0 {
        itemCount := ds.Size();
        firstVisibleIndex := 0;
        lastVisibleIndex := config.initialListSize;
      } else if position <= firstVisibleIndex {
        firstVisibleIndex := firstVisibleIndex + count;
        lastVisibleIndex := lastVisibleIndex + count;
      } else {
        deferredRenders := deferredRenders + 1;
      }
    }

    method NotifyItemRangeRemoved(position: int, count: int)
      modifies this
      ensures State() == RemoveRangeStep(old(State()), position, count)
    {
      commands := commands + [ItemRangeRemoved(position, count)];
      forcedRenders := forcedRenders + 1;
    }

    method NotifyDataSetChanged(count: int)
      modifies this
      ensures State() == DataSetChangedStep(old(State()), count)
    {
      commands := commands + [DataSetChanged(count)];
      itemCount := count;
    }

    /** The item loop of `render`: one element per index of the render range,
        keyed by the data source and marked when it needs an update; the
        placeholder for an empty list when there is an empty component. The
        second result is the item count handed to the native view. */
    method Render(ds: DataSource<T, K>, hasEmptyComponent: bool) returns (body: seq<Element<K>>, nativeItemCount: int)
      ensures var r := CalcItemRangeToRender(firstVisibleIndex, lastVisibleIndex, config.windowSize, ds.Size());
        ds.Size() > 0 ==>
          && |body| == Max(0, r.to - r.from)
          && forall j :: 0 <= j < |body| ==>
               && body[j].Item?
               && body[j].itemIndex == r.from + j
               && r.Contains(body[j].itemIndex)
               && body[j].key == ds.GetKey(ds.items[r.from + j], r.from + j)
               && body[j].Props() == ItemProps(r.from + j, NeedsItemUpdate(State(), body[j].key))
      ensures ds.Size() == 0 ==> body == (if hasEmptyComponent then [EmptyPlaceholder] else [])
      ensures nativeItemCount == if ds.Size() == 0 && hasEmptyComponent then 1 else itemCount
    {
      var count := ds.Size();
      var stateItemCount := itemCount;
      body := [];
      var range := CalcItemRangeToRender(firstVisibleIndex, lastVisibleIndex, config.windowSize, count);
      if count > 0 {
        var i := range.from;
        while i < range.to
          invariant range.from <= i <= Max(range.from, range.to)
          invariant |body| == i - range.from
          invariant forall j :: 0 <= j < |body| ==>
            && body[j].Item?
            && body[j].itemIndex == range.from + j
            && body[j].key == ds.GetKey(ds.items[range.from + j], range.from + j)
            && body[j].shouldUpdate == NeedsItemUpdate(State(), body[j].key)
        {
          var item := ds.Get(i);
          var itemKey := ds.GetKey(item, i);
          var shouldUpdate := NeedsItemUpdate(State(), itemKey);
          body := body + [Item(itemKey, i, shouldUpdate)];
          i := i + 1;
        }
      } else if hasEmptyComponent {
        body := [EmptyPlaceholder];
        stateItemCount := 1;
      }
      nativeItemCount := stateItemCount;
    }
  }
}
