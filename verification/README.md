# Live market table: tick reconciliation and virtualized rendering

This project models the two pieces of logic in the live crypto market table:

- **The home table's live-tick reconciliation** (`HomeTable`). Exchange trade
  messages are resolved from a pair symbol (such as `BTCUSDT`) to a coin id.
  The matched coin takes the new price. It flashes green or red. Its 1h/24h/7d
  percentages are nudged by a small jittered step in the direction of the move,
  and its volume grows by the jittered absolute price change times 12000.
  1200 ms later a timer clears the coin's flash.
- **The generic table's virtualized body and header layout** (`Table`). Only
  the rows the virtualizer reports are rendered. Top and bottom spacer rows
  stand in for the rest. The first three header cells are pinned at fixed left
  offsets and stacked above the others.

Modules, one concept each:

| file | module | contents |
|---|---|---|
| `wrappers.dfy` | `Wrappers` | `Option`, for JavaScript `null` |
| `coins.dfy` | `Coins` | the snapshot record `CoinData` and the table row `Coin` (record + flash) |
| `resolver.dfy` | `SymbolResolver` | `getCoinIdBySymbol` and its inverse |
| `reconcile.dfy` | `Reconcile` | the per-coin update, the list update of one tick, the flash clear |
| `feed.dfy` | `HomeFeed` | the table as a state machine: coins plus the queue of scheduled clears |
| `scenarios.dfy` | `FeedScenarios` | concrete runs on a one-coin table |
| `virtual_window.dfy` | `VirtualWindow` | spacer heights and the emitted `<tbody>` rows |
| `header_layout.dfy` | `HeaderLayout` | pinned header offsets and stacking order |

The jitter multiplier `Math.random() * (1.1 - 0.9) + 0.9` becomes a parameter
in `[0.9, 1.1]`. The source draws it once
for each coin the map updates, so a tick takes one draw per coin position
(`draws`). Timers become a queue of coin ids. All timers share the 1200 ms
delay, so they fire in the order they were scheduled. The virtualizer's output
(`virtualItems`, `totalSize`) is an input, and its guarantees are the
precondition `VirtualWindow.WellFormed`. Prices, volumes, percentages and
pixel extents are `real`.

### Behaviour of the code worth knowing

- Flash timers **stack**. They are not cancelled and rescheduled. Every message
  whose symbol resolves schedules its own clear. This includes a message at
  an unchanged price and a message for an id with a clear already pending. So
  the clear of an earlier tick can remove the flash of a later tick before its
  own 1200 ms have elapsed (`FeedScenarios.OlderTimerClearsNewerFlash`).
- The pinned header offsets are the fixed numbers 0, 33 and 78 px. They are not
  derived from column widths. The home table's first two columns are 35 and
  50 px wide, so the cumulative offsets would be 0, 35 and 85. `Table.tsx`
  sets the pinning inline only on header cells; the stylesheet pins the first
  three body cells at the same offsets, at z-index 5.
- The page subscribes to five streams. `solusdt` is missing, although the
  resolver maps it to `solana`, so that coin never receives a tick
  (`SymbolResolver.SubscribedStreamsOmitSolana`).
- With no virtual items, both spacers are 0. So the height identity holds only
  when at least one row is on screen.

## Model

| member | source | states |
|---|---|---|
| Coins.FromSnapshot | src/components/pages/home/HomeTable/HomeTable.tsx:32-34 | the initial rows are the snapshot records in order, and no row has a flash |
| HomeFeed.Init | src/components/pages/home/HomeTable/HomeTable.tsx:32-34 | the mounted state holds every snapshot record without a flash and no scheduled clear, so every flash is backed by a clear |
| SymbolResolver.Resolve | src/components/pages/home/HomeTable/HomeTable.tsx:36-45 | a symbol resolves iff its lower-cased form is one of the six tracked pairs; the id returned is one of six tracked ids and maps back to that lower-cased symbol |
| SymbolResolver.ResolveCaseInsensitive | src/components/pages/home/HomeTable/HomeTable.tsx:36-37 | a symbol and its lower-cased form resolve to the same result |
| SymbolResolver.ResolveSymbolFor | src/components/pages/home/HomeTable/HomeTable.tsx:38-43 | every tracked id is returned for its own pair symbol (round trip id → symbol → id) |
| SymbolResolver.ResolveInjective | src/components/pages/home/HomeTable/HomeTable.tsx:38-44 | two symbols resolving to the same id are equal up to letter case |
| SymbolResolver.SixTrackedIds | src/components/pages/home/HomeTable/HomeTable.tsx:38-43 | there are exactly six distinct ids the resolver can return |
| SymbolResolver.SubscribedStreamsOmitSolana | src/components/pages/home/HomeTable/HomeTable.tsx:53-54 | every subscribed stream resolves, and none resolves to `solana` |
| HomeFeed.MatchedId | src/components/pages/home/HomeTable/HomeTable.tsx:57-61 | a message concerns a coin iff it carries trade data whose symbol resolves, and then that coin is a tracked id |
| Reconcile.Nudge | src/components/pages/home/HomeTable/HomeTable.tsx:73-82 | a window's step is positive iff the price rose, and its size lies between 0.9 and 1.1 times the window's weight; a missing value counts as 0 |
| Reconcile.GrowVolume | src/components/pages/home/HomeTable/HomeTable.tsx:73-83 | the volume strictly grows, by between 10800 and 13200 times the absolute price change |
| Reconcile.UpdateCoin | src/components/pages/home/HomeTable/HomeTable.tsx:65-84 | at the same price the coin is returned unchanged; otherwise the new price is taken, the flash is green iff the price rose and red iff it fell, the three windows move in the price's direction with 1h > 24h > 7d in size, by one shared jitter (the 1h step is twice the 24h step, which is twice the 7d step), volume strictly grows within its bounds, and id, rank, name, supply, market cap and sparkline stay the same |
| Reconcile.ApplyTick | src/components/pages/home/HomeTable/HomeTable.tsx:63-86 | the list keeps its length, order and ids; coins with another id are unchanged, coins with the matched id are updated with their own draw |
| Reconcile.ApplyTickVolumeMonotone | src/components/pages/home/HomeTable/HomeTable.tsx:83 | no coin's volume decreases in a tick |
| Reconcile.ApplyTickSamePrice | src/components/pages/home/HomeTable/HomeTable.tsx:67-71 | a tick at the matched coins' current price returns the list unchanged |
| Reconcile.ClearFlash | src/components/pages/home/HomeTable/HomeTable.tsx:88-94 | only the flash of coins with the given id becomes null; every record field and every other coin is unchanged |
| Reconcile.ClearFlashIdempotent | src/components/pages/home/HomeTable/HomeTable.tsx:89-93 | clearing a flash twice is clearing it once |
| HomeFeed.OnMessage | src/components/pages/home/HomeTable/HomeTable.tsx:56-95 | a message without data or with an untracked symbol changes nothing; otherwise the tick is applied and exactly one clear for the id is added behind the pending ones, without deduplication; ids are kept and flashes stay backed by clears |
| HomeFeed.OnTimer | src/components/pages/home/HomeTable/HomeTable.tsx:88-94 | the oldest clear is removed from the queue and clears its coin's flash; ids are kept and flashes stay backed |
| HomeFeed.Step | src/components/pages/home/HomeTable/HomeTable.tsx:56-95 | any event keeps the list's length and ids, keeps every flash backed by a pending clear, and lowers no volume |
| HomeFeed.RunKeepsIds | src/components/pages/home/HomeTable/HomeTable.tsx:63-65 | over any sequence of events no coin is created, removed, reordered or re-identified |
| HomeFeed.RunVolumeMonotone | src/components/pages/home/HomeTable/HomeTable.tsx:83 | over any sequence of events no coin's volume decreases |
| HomeFeed.RunFlashBacked | src/components/pages/home/HomeTable/HomeTable.tsx:76-94 | over any sequence of events every flashing coin has a clear scheduled for its id |
| HomeFeed.Drain | src/components/pages/home/HomeTable/HomeTable.tsx:88-94 | letting all scheduled clears fire empties the queue and keeps the ids |
| HomeFeed.DrainClearsEveryFlash | src/components/pages/home/HomeTable/HomeTable.tsx:88-94 | once the scheduled clears have fired, no coin flashes and every record is as before |
| FeedScenarios.BtcUsdtResolves | src/components/pages/home/HomeTable/HomeTable.tsx:37-38 | `btcusdt` and `BTCUSDT` both resolve to `bitcoin` |
| FeedScenarios.RisingTickThenExpiry | src/components/pages/home/HomeTable/HomeTable.tsx:63-94 | a rise 50000 → 50100 takes the price, flashes green, adds between 1080000 and 1320000 volume and schedules one clear that then removes the flash |
| FeedScenarios.UntrackedSymbolIgnored | src/components/pages/home/HomeTable/HomeTable.tsx:60-61 | a `dogeusdt` trade leaves the state unchanged |
| FeedScenarios.UnchangedPriceStillSchedules | src/components/pages/home/HomeTable/HomeTable.tsx:71-94 | a tick at the same price changes no coin but still schedules a clear |
| FeedScenarios.OlderTimerClearsNewerFlash | src/components/pages/home/HomeTable/HomeTable.tsx:88-94 | after a rise and a fall, the rise's clear removes the fall's red flash while the fall's clear is still pending |
| VirtualWindow.PaddingTop | src/components/Table/Table.tsx:43 | the top spacer is 0 when there are no items (its non-empty value is stated by `RowsAtVirtualOffsets`) |
| VirtualWindow.PaddingBottom | src/components/Table/Table.tsx:44-47 | the bottom spacer is 0 when there are no items (its non-empty value is stated by `BottomSpacerBelowLastRow`) |
| VirtualWindow.RowsAtVirtualOffsets | src/components/Table/Table.tsx:43-93 | under the virtualizer's guarantees, the top spacer plus the rows rendered before item k reach exactly to item k's start, so every rendered row sits at its virtual offset (for k = 0: the top spacer is the first item's start) |
| VirtualWindow.BottomSpacerBelowLastRow | src/components/Table/Table.tsx:44-47 | with at least one item, the last item's end plus the bottom spacer is the total size |
| VirtualWindow.RowsOf | src/components/Table/Table.tsx:91-93 | one data row per item, `rows[item.index]`, in item order |
| VirtualWindow.Body | src/components/Table/Table.tsx:85-120 | the body is a top spacer iff the top padding is positive, then exactly the items' rows in order, then a bottom spacer iff the bottom padding is positive; data rows occupy exactly the middle positions |
| VirtualWindow.ExtentTelescopes | src/components/Table/Table.tsx:41-47 | the rendered rows of back-to-back items span from the first start to the last end |
| VirtualWindow.HeightReconstructed | src/components/Table/Table.tsx:41-47 | with at least one item, top padding + rendered extent + bottom padding equals the total size |
| VirtualWindow.PaddingsNonNegative | src/components/Table/Table.tsx:43-47 | under the virtualizer's guarantees both paddings are non-negative |
| VirtualWindow.BodyHeightIsTotal | src/components/Table/Table.tsx:85-119 | the heights of the spacer rows actually emitted plus the rendered rows' extent equal the total size |
| HeaderLayout.StyleAt | src/components/Table/Table.tsx:56-72 | headers 0–2 are pinned at left offsets 0, 33, 78 with z-index 15; all others are unpinned, without a left offset, at z-index 10 |
| HeaderLayout.HeaderRow | src/components/Table/Table.tsx:54-83 | a header group gets one style per cell, in column order |
| HeaderLayout.PinnedOrderedAndOnTop | src/components/Table/Table.tsx:57-72 | pinned offsets start at 0 and strictly increase, and every pinned header stacks above every unpinned one |

## Left out

- The WebSocket lifecycle is left out: building the URL from the environment, the missing-URL error, opening the socket and closing it on unmount. These are I/O and resource handling.
- `JSON.parse` and `parseFloat` are left out. A message is taken already decoded, with its price as a `real`. `JSON.parse` can throw, a trade without a symbol makes `toLowerCase` throw, and `parseFloat` can give NaN (a red, non-zero move). None of these fits an idealised real model.
- SymbolResolver.ToLower: lower-cases ASCII letters only. JavaScript's `toLowerCase` also folds non-ASCII letters, and the Kelvin sign lower-cases to `k`. None of the six pair symbols contains a `k`, so no non-ASCII input can resolve either way.
- Reconcile.ValidJitter: allows `m = 1.1`. `Math.random()` is below 1, so the source's multiplier stays just under 1.1 up to floating-point rounding.
- Wall-clock time and React's state batching are left out. The 1200 ms timers are a queue that fires in scheduling order. The model does not say how long a flash stays visible, only which clear removes it.
- HomeFeed.Step: a timer event with no clear pending is a no-op. In the source no such callback exists, so this only lets event sequences be stated freely.
- The internals of the virtualizer and of the table library are left out. Their outputs (`virtualItems`, `totalSize`, `rows`, header groups) are inputs, constrained by `VirtualWindow.WellFormed` and by `Body`'s precondition. That precondition is that every item index is a row.
- JSX cell renderers, colours, sparklines, tooltips, progress bars, the ×1.2 supply figure, `isOnWatchlist` (never set) and the column definitions are left out. These are presentational.
- Header widths and text alignment, and `top: 0` on every header, are left out. They carry no logic beyond what `HeaderLayout` states.
- The snapshot fetch in `getServerSideProps` is I/O. Its `CoinData` shape is the `Coins.CoinData` datatype.
