# RecyclerView list synchronisation, modelled in Dafny

This project models the logic of the Android list component `RecyclerView` found in
`src/listview-android/RecyclerViewList.js`, together with the refresh-state decoding of its
pull-to-refresh wrapper in `src/listview-android/RefreshRecyclerView.js`.

The component mirrors a native recycler view and keeps it in step with a mutable, ordered data
source. The model covers these parts:

- **Visible window.** `firstVisibleIndex` / `lastVisibleIndex` and how insertions, scrolls and
  the native view's visibility reports move it.
- **Reported item count.** `itemCount`, the count handed to the native view.
- **Dirty tracking.** `_shouldUpdateAll` (everything re-renders) and `_shouldUpdateKeys` (only
  these keys re-render). Both are set by data-source events and cleared after mount and after
  each update commit.
- **Command log.** The structural commands dispatched to the native view, kept as a
  `seq<Command>`.
- **Render decisions.** The render range with its overscan, the per-item update decision, the
  re-render gate of `RecyclerViewItem`, and the item loop of `render`.

## Layout

- `wrappers.dfy`: module `Wrappers`, with `Option`. `None` stands for JavaScript's `undefined`.
- `recycler_view_list.dfy`: module `RecyclerViewList`.
  - Every transition of the component is a pure function over a `ListState`: `InsertRangeStep`,
    `RemoveRangeStep`, `MoveStep`, `DataSetChangedStep`, `EventStep`, `ScrollStep`,
    `MountStep`, `CommitStep`, `VisibleItemsStep`.
  - The lemmas state what the source promises about those functions, one event at a time and
    over whole event sequences (`Replay`).
  - The class `RecyclerView` keeps the same state in fields. Each of its methods is proved to
    perform exactly the corresponding transition (`ensures State() == …Step(old(State()), …)`).
  - `Render` is proved against the render-range and update-decision functions.
- `refresh_recycler_view.dfy`: module `RefreshRecyclerView`, with the constants `Idle` through
  `PreLoad`, `GetRefreshState`, and a reference inverse used to prove that the decoding is
  injective.

How outside effects are modelled:

- **Data source.** It is passed to each handler as a snapshot value (`DataSource`): its items
  and its key function. `size`, `get` and `getKey` read that snapshot.
- **Native commands.** A call to `UIManager.dispatchViewManagerCommand` becomes an append to
  the command log.
- **React.** `setState` is a synchronous field update. `forceUpdate()` increments
  `forcedRenders`. The `setTimeout` that defers a `forceUpdate` increments `deferredRenders`.

Behaviour of the code worth knowing:

- The end of the render range is not clamped at 0. So `from <= to` holds only for a
  well-formed window (`first <= last`, `windowSize >= 0`, `last + windowSize >= 0`). It is not
  unconditional.
- The deferred `forceUpdate` at `RecyclerViewList.js:406-408` has no guard against running
  after unmount.
- `onPush` reports the insertion at position `dataSource.size()`, read when the event is
  delivered. Whether that is the new item's index depends on whether the data source mutates
  before it notifies. `DataSource.js` is not part of this model, so this is stated as behaviour
  and not claimed as a defect.
- `scrollToIndex` and `scrollToEnd` default `animated` to `true` when it is omitted. The
  model's `animated: bool` parameter is always given, so an omitted `animated` is modelled by
  passing `true`.
- `componentDidMount` scrolls only when `initialScrollIndex` is truthy. An index of 0, or no
  index at all, skips the scroll.
- The reported `itemCount` changes only in two places: the empty-list branch of an insertion,
  and `notifyDataSetChanged`. Inserts and removals into a non-empty list leave it stale
  (`ReplayKeepsItemCount`).

## Model

| member | source | states |
|---|---|---|
| RecyclerViewList.CalcItemRangeToRender | src/listview-android/RecyclerViewList.js:368-374 | `0 <= from <= count` and `to <= count`; `from <= to` for a well-formed window; index `i` is rendered iff `0 <= i < count` and `first - windowSize <= i < last + windowSize` |
| RecyclerViewList.RenderRangeMonotone | src/listview-android/RecyclerViewList.js:368-374 | a larger overscan never shrinks the render range at either end |
| RecyclerViewList.NeedsItemUpdate | src/listview-android/RecyclerViewList.js:349-351 | the per-item decision: true iff everything is dirty or the key is among the dirty keys; its meaning over time is given by `CommitClearsDirty` (nothing is dirty after a commit), `SetEvent` (an `onSet` marks exactly its key), `MountClearsDirty` (nothing is dirty after mount) and `NeedsUpdateAfterEvents` (dirty iff a non-`onSet` event arrived or an `onSet` marked the key since the last commit) |
| RecyclerViewList.ShouldComponentUpdate | src/listview-android/RecyclerViewList.js:26-35 | the item gate: re-render iff the index changed or `shouldUpdate` is set; its meaning is given by `CommittedItemsAreReused` (right after a commit only a moved item is rebuilt) and `RerenderAfterEvents` (rebuilt iff moved, a non-`onSet` event arrived, or its key was set) |
| RecyclerViewList.NeedsUpdateAfterEvents | src/listview-android/RecyclerViewList.js:349-351 | after a commit and any sequence of events, an item needs an update iff some event other than `onSet` arrived or an `onSet` marked its key |
| RecyclerViewList.RerenderAfterEvents | src/listview-android/RecyclerViewList.js:26-35 | in the render pass after a commit and any sequence of events, an item is rebuilt iff its index changed, some event other than `onSet` arrived, or an `onSet` marked its key; otherwise its output is reused |
| RecyclerViewList.CommitClearsDirty | src/listview-android/RecyclerViewList.js:192-195 | after a commit no key needs an update |
| RecyclerViewList.CommittedItemsAreReused | src/listview-android/RecyclerViewList.js:26-35 | after a commit an item is rebuilt iff its index changed; otherwise its output is reused |
| RecyclerViewList.InitialState | src/listview-android/RecyclerViewList.js:144-155 | window starts at a non-negative `initialScrollIndex`, else 0, and spans `initialListSize`; count is the data size; all dirty, no keys, empty log |
| RecyclerViewList.CommitStep | src/listview-android/RecyclerViewList.js:192-195 | clears the dirty flag and keys; window, count, log and render counters are unchanged |
| RecyclerViewList.ClampIndex | src/listview-android/RecyclerViewList.js:311 | result lies in `[0, max(0, size-1)]`; an in-range index is kept; a negative index becomes 0; an index past the end becomes the last index |
| RecyclerViewList.EventStepLog | src/listview-android/RecyclerViewList.js:90-131 | each listener event appends exactly the commands of the reference table `EventCommands` |
| RecyclerViewList.EventStepUpdateAll | src/listview-android/RecyclerViewList.js:90-131 | every event except `onSet` sets `_shouldUpdateAll`; `onSet` leaves it as it was |
| RecyclerViewList.SingleItemEvents | src/listview-android/RecyclerViewList.js:91-110 | `onUnshift` logs `inserted(0,1)`; `onPush` logs `inserted(size,1)`; `onMoveUp(p)` logs `moved(p,p-1)`; `onMoveDown(p)` logs `moved(p,p+1)`; each move forces one render |
| RecyclerViewList.SpliceCommands | src/listview-android/RecyclerViewList.js:112-120 | the log grows by one command per non-empty part; removal comes before insertion with the exact arguments; nothing is logged when both parts are empty; `_shouldUpdateAll` is always set |
| RecyclerViewList.SetEvent | src/listview-android/RecyclerViewList.js:122-125 | the dirty keys become the old ones plus the new key, in both directions; no command is logged; window, flag and count are unchanged; exactly one forced render |
| RecyclerViewList.InsertRangeWindow | src/listview-android/RecyclerViewList.js:385-411 | logs `inserted(position,count)`. Count 0: window becomes `[0, initialListSize]` and count becomes the data size. `position <= first`: both bounds shift by `count`. Otherwise: window unchanged and exactly one deferred render |
| RecyclerViewList.RemoveRangeKeepsWindow | src/listview-android/RecyclerViewList.js:413-420 | a removal logs `removed(position,count)`, forces one render, and changes neither the window nor the count |
| RecyclerViewList.VisibleItemsSetsWindow | src/listview-android/RecyclerViewList.js:353-366 | the visibility callback sets the window to exactly the reported indices and changes nothing else |
| RecyclerViewList.DataSetChangedResetsCount | src/listview-android/RecyclerViewList.js:422-431 | `notifyDataSetChanged(n)` logs `dataSetChanged(n)` and sets the count to `n`; window, dirty state and render counters are unchanged; a props update does this only for a replaced data source and otherwise changes nothing |
| RecyclerViewList.ItemCountChangesInTwoPlaces | src/listview-android/RecyclerViewList.js:385-431 | the count changes only in the empty-list branch of an insertion (to the data size) and in `notifyDataSetChanged`; removal, move, scroll, visibility report, commit and mount keep it |
| RecyclerViewList.EventStepItemCount | src/listview-android/RecyclerViewList.js:392-398 | an event changes the reported count only when it inserts into a list whose count is 0, and then the count becomes the data size |
| RecyclerViewList.ScrollKeepsWidth | src/listview-android/RecyclerViewList.js:310-331 | logs a scroll to the clamped index; the window width is kept; animated scrolls leave the window alone; a jump starts the window at the clamped index |
| RecyclerViewList.ScrollToEndTargetsLast | src/listview-android/RecyclerViewList.js:302-308 | scrolling to the end targets the last index, or 0 for an empty list |
| RecyclerViewList.MountClearsDirty | src/listview-android/RecyclerViewList.js:168-181 | after mount nothing is dirty; a non-zero `initialScrollIndex` jumps to its clamped value; otherwise window and log are unchanged |
| RecyclerViewList.ReplayLog | src/listview-android/RecyclerViewList.js:90-131 | over any sequence of events, the log grows by every event's commands in event order |
| RecyclerViewList.ReplayDirtyKeys | src/listview-android/RecyclerViewList.js:122-125 | between commits the dirty keys are the old keys followed by every `onSet` key in order, so they never shrink |
| RecyclerViewList.ReplayUpdateAll | src/listview-android/RecyclerViewList.js:90-131 | between commits everything is dirty iff it was before or some event other than `onSet` arrived |
| RecyclerViewList.ReplayKeepsItemCount | src/listview-android/RecyclerViewList.js:385-420 | once the reported count is non-zero, no sequence of listener events changes it |
| RecyclerViewList.RecyclerView.constructor | src/listview-android/RecyclerViewList.js:133-156 | the fields equal `InitialState` for the props and the data size |
| RecyclerViewList.RecyclerView.DidMount | src/listview-android/RecyclerViewList.js:168-181 | the new state is `MountStep` of the old one |
| RecyclerViewList.RecyclerView.DidUpdate | src/listview-android/RecyclerViewList.js:192-195 | the new state is `CommitStep` of the old one |
| RecyclerViewList.RecyclerView.WillReceiveProps | src/listview-android/RecyclerViewList.js:183-190 | a replaced data source dispatches `dataSetChanged(newSize)` and takes that count; otherwise nothing changes |
| RecyclerViewList.RecyclerView.OnUnshift | src/listview-android/RecyclerViewList.js:91-94 | the new state is `EventStep(old, Unshift)` |
| RecyclerViewList.RecyclerView.OnPush | src/listview-android/RecyclerViewList.js:96-100 | the new state is `EventStep(old, Push)` at the snapshot's size |
| RecyclerViewList.RecyclerView.OnMoveUp | src/listview-android/RecyclerViewList.js:102-105 | the new state is `EventStep(old, MoveUp(p))` |
| RecyclerViewList.RecyclerView.OnMoveDown | src/listview-android/RecyclerViewList.js:107-110 | the new state is `EventStep(old, MoveDown(p))` |
| RecyclerViewList.RecyclerView.OnSplice | src/listview-android/RecyclerViewList.js:112-120 | the new state is `EventStep(old, Splice(start, deleteCount, items.length))` |
| RecyclerViewList.RecyclerView.OnSet | src/listview-android/RecyclerViewList.js:122-125 | the new state is `EventStep(old, Set(getKey(item, index)))` |
| RecyclerViewList.RecyclerView.OnSetDirty | src/listview-android/RecyclerViewList.js:127-130 | the new state is `EventStep(old, SetDirty)` |
| RecyclerViewList.RecyclerView.ScrollToIndex | src/listview-android/RecyclerViewList.js:310-331 | the new state is `ScrollStep` of the old one |
| RecyclerViewList.RecyclerView.ScrollToEnd | src/listview-android/RecyclerViewList.js:302-308 | the new state is `ScrollToEndStep` of the old one |
| RecyclerViewList.RecyclerView.CompleteRefresh | src/listview-android/RecyclerViewList.js:333-339 | logs `completeRefresh` and changes nothing else |
| RecyclerViewList.RecyclerView.CompleteLoadMore | src/listview-android/RecyclerViewList.js:341-347 | logs `completeLoadMore` and changes nothing else |
| RecyclerViewList.RecyclerView.HandleVisibleItemsChange | src/listview-android/RecyclerViewList.js:353-366 | the new state is `VisibleItemsStep` of the old one |
| RecyclerViewList.RecyclerView.NotifyItemMoved | src/listview-android/RecyclerViewList.js:376-383 | the new state is `MoveStep` of the old one |
| RecyclerViewList.RecyclerView.NotifyItemRangeInserted | src/listview-android/RecyclerViewList.js:385-411 | the new state is `InsertRangeStep` of the old one |
| RecyclerViewList.RecyclerView.NotifyItemRangeRemoved | src/listview-android/RecyclerViewList.js:413-420 | the new state is `RemoveRangeStep` of the old one |
| RecyclerViewList.RecyclerView.NotifyDataSetChanged | src/listview-android/RecyclerViewList.js:422-431 | the new state is `DataSetChangedStep` of the old one |
| RecyclerViewList.RecyclerView.Render | src/listview-android/RecyclerViewList.js:209-271 | one element per index of the render range, in order, each with the data source's key and the update decision; for an empty list, the placeholder when an empty component is given; the native item count is 1 for the placeholder, else the state's count |
| RefreshRecyclerView.StateCodes | src/listview-android/RefreshRecyclerView.js:36-42 | the constants `Idle` through `PreLoad` are the integers 0 through 6 |
| RefreshRecyclerView.GetRefreshState | src/listview-android/RefreshRecyclerView.js:89-112 | a name is produced iff the code is in `Idle..FirstLoad` (0..5); `'PreLoad'` is never produced |
| RefreshRecyclerView.DecodeRoundTrip | src/listview-android/RefreshRecyclerView.js:92-109 | each decoded name maps back to its code: 0 Idle, 1 HeaderRefreshing, 2 FooterRefreshing, 3 NoMoreData, 4 Failure, 5 FirstLoad |
| RefreshRecyclerView.EncodeRoundTrip | src/listview-android/RefreshRecyclerView.js:92-109 | each recognised name is what its code decodes to |
| RefreshRecyclerView.GetRefreshStateInjective | src/listview-android/RefreshRecyclerView.js:92-109 | two codes that decode to the same name are equal |
| RefreshRecyclerView.PreLoadHasNoName | src/listview-android/RefreshRecyclerView.js:42 | `PreLoad` is 6 and decodes to no value |
| RefreshRecyclerView.LayoutProps | src/listview-android/RefreshRecyclerView.js:62-65 | the refresh layout receives `enableRefresh` unchanged; it receives a state name iff the code is 0..5, and that name maps back to the code; it never receives `'PreLoad'` |

## Left out

- Native dispatch through `UIManager.dispatchViewManagerCommand` and `findNodeHandle` is calls into native code. Only the command appended to the log is modelled. The `velocity`, `viewPosition` and `viewOffset` arguments of a scroll are passed through unread, so they are not carried in the `ScrollTo` command.
- React scheduling is not modelled. `setState` is a synchronous update. The non-animated scroll's dispatch, made in the `setState` callback, is logged right after the window update. `forceUpdate()` and the `setTimeout` re-render are counters, not real renders, so no render or commit is interleaved inside a handler.
- The data source's own behaviour (`DataSource.js`, not part of this model) is left out: its mutations, its listener list, and size changes by event. The component sees it only as a snapshot (items and key function) passed to each handler.
- Listener registration and removal (constructor, `componentWillUnmount`, and the swap in `componentWillReceiveProps`) belong to the data source. The swap is modelled only through `replaced`, a flag saying whether the data source object changed.
- The application's `onVisibleItemsChange` observer called from `_handleVisibleItemsChange` is application code. Calling it changes no state of the component.
- JSX construction, header/footer/separator/empty elements, styles, `propTypes` and `nativeOnlyProps` are presentation. The empty-list element is the `EmptyPlaceholder` element. `defaultProps` are not recorded: `Config` takes every value explicitly.
- The commented-out load-more block in `render` is dead code.
- Props other than `dataSource` (`windowSize`, `initialListSize`, `initialScrollIndex`) are fixed for the component's lifetime: the class takes them once as `config`, while the source reads them from `this.props` at each use, so a props update could change them. The pure step functions take `config` on every call, so they do not depend on this.
- JavaScript values that are not integers are not modelled: `undefined` or `NaN` indices, fractional numbers, and refresh codes of another type. Indices, sizes and codes are integers.
- `RefreshRecyclerView.render` forwarding props to the list is plumbing and is not modelled beyond `LayoutProps`. At line 71 it passes `ItemSeparatorComponent` as `onVisibleItemsChange`. At line 72 it passes `ListEmptyComponent` as `ItemSeparatorComponent`, so `ListEmptyComponent` is never passed on. A caller's own `onVisibleItemsChange` still overrides line 71, because `{...reset}` follows it at line 79.
- `android/src/main/java/nell/jinxian/RCTViewsPackage.java` only registers the Android package and has no logic.
