# Ramble scroll-recycling engine in Dafny

Ramble shows a long, scrollable page of tiles ("riders", "frogs", "stories")
laid out in columns while keeping only a handful of them alive. Each tile
has a logical index; tile `i` sits in column `i % C`, and its column
neighbours are `i - C` and `i + C`. Every frame each tile steps. Depending
on the scroll direction and where it was measured, it either spawns the
neighbour it is about to reveal or recycles itself once it has left the
viewport. A recycled tile goes to the registry's object pool, and what it
displayed goes into an index-keyed cache. When the same index is needed
again, the pooled object is reused and the cached height and content come
back.

The model has one module per part of the engine:

- `Registry` (`registry.dfy`) is the SimpleSim entity registry.
  - `System` is a class with the live `records`, the world's object `pool`
    and the id counter, all updated in place.
  - `add` reuses the first pooled item of a class or constructs one;
    `destroyItem` moves a record to the pool; `getNewId` bumps the counter.
  - The two queries are loops proved equal to sequence filters.
  - Also here: the frame loop `_update`, whose steps may spawn items and
    destroy their own record while the loop runs; `Vector`'s in-place
    arithmetic; and the world-edge bounce.
- `Layout` (`layout.dfy`) is the column arithmetic shared by all drivers:
  column count, centred column x, a new tile chained one padding from its
  neighbour, `Utils.map` and the per-column scroll speed.
- `Columns` (`columns.dfy`):
  - the neighbour lookup (`getAllItemsByAttribute('index', j)[0]`);
  - the column-length accumulation of `getMinMaxColumn`/`getLongestColumn`,
    proved against a plain per-column sum. Columns are keyed by `myCol`,
    and tiles without one share the `undefined` key.
- `Tiles` (`tiles.dfy`) holds the cache entry of each driver (`Store`,
  `Lookup`), the `||` defaults, NaN arithmetic on `undefined`, and the
  top-padding bookkeeping of spawning and recycling above the viewport.
- `RiderStep` (`riderstep.dfy`) is the guarded decision procedure of
  `Rider.prototype.step`, with the frame-level "one padding change per
  frame" property.
- `Lanes` (`lane.dfy`) is the per-column world `Lane` (margin clamp,
  `adjusted` reset) and `ScrollBlock.addHeight`.
- `Engine` (`engine.dfy`) is the rider driver of src/Driver.js and
  release/Ramble.js together with the rider step acting on it. A `Config`
  flag selects the variant: the options each file gives a new rider, each
  file's cache schema, and the step direction (the driver's in
  src/Rider.js, the lane velocity's in release/Ramble.js).
- `Frogs` (`frog.dfy`) is the story driver of src/Frog.js: opacity fade-in,
  its own four-branch step, `createStory`, the cache and `getLongestColumn`.
- `Froggers` (`frogger.dfy`) is the frog driver of src/Frogger.js:
  - `init` settings, `createFrog` with content reuse, the cache and
    `getMinMaxColumn`;
  - `getFrogAreaWidth`;
  - the scroll handler's direction and scroll-block growth.
- `Palette` (`palette.dfy`) is the colour ranges, gradients and colour list
  of `ColorPalette`.

How the model represents the source:

- DOM measurements (`getBoundingClientRect`, `offsetHeight`, the viewport
  size) and random choices are parameters.
- DOM nodes are natural-number handles counted by the driver.
- JavaScript numbers are reals, or `JsNum` where `undefined` arithmetic can
  produce NaN.
- JavaScript's `%` is `Layout.JsRem`, which truncates toward zero.

## Model

| member | source | states |
|---|---|---|
| Registry.RemoveAt | public/scripts/SimpleSim.js:283 | `splice(i, 1)` removes exactly element i: earlier elements keep their place, later ones shift down by one |
| Registry.FindById | public/scripts/SimpleSim.js:280-286 | the first record with the id, or none exactly when no record has it |
| Registry.FindByName | public/scripts/SimpleSim.js:249-254 | the first pooled item named `klass`, or none exactly when no item has that name |
| Registry.FilterByName | public/scripts/SimpleSim.js:400-411 | the filter keeps only items with the name and never grows the list |
| Registry.FilterByNameEmpty | public/scripts/SimpleSim.js:246-248 | the pool filter is empty exactly when the pool search finds nothing, so `add`'s two tests agree |
| Registry.FilterByNameMembers | public/scripts/SimpleSim.js:400-411 | an item is in the result iff it is in the list and has the name |
| Registry.DestroyFirstNamed | public/scripts/SimpleSim.js:276-287 | with unique ids, destroying the first item of a class by its id removes exactly the head of that class's filtered list |
| Registry.FilterByAttr | public/scripts/SimpleSim.js:421-435 | the filter keeps only records on which the attribute is defined and, when a value is given, equal to it |
| Registry.FilterByAttrMembers | public/scripts/SimpleSim.js:421-435 | a record is in the result iff it is live and matches |
| Registry.FindByAttr | public/scripts/SimpleSim.js:421-435 | the position of the first matching record, none exactly when nothing matches |
| Registry.FilterHeadIsFirstMatch | public/scripts/SimpleSim.js:421-435 | `getAllItemsByAttribute(...)[0]` is the first matching record, undefined exactly when nothing matches |
| Registry.CtorName | public/scripts/SimpleSim.js:18-33 | a constructed item takes the given name, else a non-empty default |
| Registry.SizeOption | public/scripts/SimpleSim.js:53-54 | `options.width || 20`: a given non-zero size is kept, and the result is never 0 |
| Registry.Init | public/scripts/SimpleSim.js:39-64 | `init` never changes the item's id |
| Registry.InitMerges | public/scripts/SimpleSim.js:39-64 | `init` copies every option onto the item, keeps earlier properties the options do not override, defaults width and height and derives `mass = w*h*0.025` |
| Registry.InitCarries | public/scripts/SimpleSim.js:39-64 | an initialised item carries its options whatever it held before |
| Registry.Schedule | public/scripts/SimpleSim.js:306-315 | a frame makes one step call per record live when it starts (none while paused) and one draw call per record live after the steps |
| Registry.Backward | public/scripts/SimpleSim.js:306-315 | both loops visit the records from the last to the first: call k is for record `n-1-k` |
| Registry.BackwardExtend | public/scripts/SimpleSim.js:306-315 | visiting one more record further down the list adds exactly its call at the end |
| Registry.StepsBeforeDraws | public/scripts/SimpleSim.js:306-315 | in a frame no step call follows a draw call |
| Registry.SharedIdCountsTwice | public/scripts/SimpleSim.js:276-287 | two records with the same id count that id twice |
| Registry.UniqueIdAt | public/scripts/SimpleSim.js:276-287 | with unique ids, `destroyItem(records[i])` finds record i itself |
| Registry.RecycleKeepsValid | public/scripts/SimpleSim.js:248-254 | taking a pooled item back keeps ids unique and the live-plus-pooled id multiset unchanged |
| Registry.ConstructKeepsValid | public/scripts/SimpleSim.js:256-260 | a constructed item with the next id keeps ids unique and handed out |
| Registry.DestroyKeepsValid | public/scripts/SimpleSim.js:283-284 | moving a record to the pool keeps ids unique and the live-plus-pooled id multiset unchanged |
| Registry.System.constructor | public/scripts/SimpleSim.js:202-236 | an empty registry: no records, empty pool, counter 0 |
| Registry.System.GetNewId | public/scripts/SimpleSim.js:191-194 | the counter goes up by one and the new value is returned, so ids never repeat |
| Registry.System.Add | public/scripts/SimpleSim.js:238-269 | with a pooled item of the class: exactly the first one leaves the pool and, re-initialised with the same id, is appended to the records, with no new id. Otherwise, for a known class, a new item with the next id is appended. For an unknown class it is an error and nothing changes. On success the item returned is the last record and carries the options |
| Registry.System.FirstInPool | public/scripts/SimpleSim.js:249-254 | the loop finds the first pooled item named `klass` |
| Registry.System.Recycle | public/scripts/SimpleSim.js:250-252 | pooled item k is spliced out of the pool and appended, re-initialised, to the records |
| Registry.System.Construct | public/scripts/SimpleSim.js:256-260 | a new item with the next id is appended, initialised |
| Registry.System.DestroyItem | public/scripts/SimpleSim.js:276-287 | the first record with obj's id moves to the end of the pool; with no such record nothing changes; live plus pooled ids are preserved |
| Registry.System.GetAllItemsByName | public/scripts/SimpleSim.js:400-411 | the loop returns exactly the filter of the given list (records by default) |
| Registry.System.GetAllItemsByAttribute | public/scripts/SimpleSim.js:421-435 | the loop returns exactly the attribute filter of the records |
| Registry.System.SpawnDuringStep | public/scripts/SimpleSim.js:238-269 | a spawn in a step only appends: the records already live keep their places |
| Registry.System.DestroyDuringStep | public/scripts/SimpleSim.js:276-287 | a step destroying itself removes exactly its own record |
| Registry.System.ApplyEffect | public/scripts/SimpleSim.js:306-311 | one step's spawn and self-destroy leave the records before it untouched and the ids unique |
| Registry.System.StepAll | public/scripts/SimpleSim.js:306-311 | while steps spawn and destroy themselves, every record live at the start is stepped exactly once, last first, and the registry stays valid |
| Registry.System.DrawAll | public/scripts/SimpleSim.js:313-315 | every live record is drawn once, last first |
| Registry.System.Update | public/scripts/SimpleSim.js:293-331 | the calls of a frame are exactly the schedule: a step for every record live at the start, last first (none while paused, when nothing changes), then a draw for every record live after the steps |
| Registry.Vector.Add | public/scripts/SimpleSim.js:526-530 | adds the other vector in place |
| Registry.Vector.Sub | public/scripts/SimpleSim.js:538-542 | subtracts the other vector in place |
| Registry.Vector.Mult | public/scripts/SimpleSim.js:550-554 | scales in place |
| Registry.Vector.Div | public/scripts/SimpleSim.js:562-566 | divides in place |
| Registry.Bounce | public/scripts/SimpleSim.js:112-118 | an edge that crosses the far or near world edge is set back onto it and the velocity becomes `-bounciness` times itself; otherwise nothing changes; an item that fits ends inside the world |
| Registry.CheckWorldEdges | public/scripts/SimpleSim.js:103-127 | each axis bounces independently against the world's width and height |
| Layout.JsRem | src/Driver.js:102 | `i % C` truncates toward zero: the Euclidean remainder for a non-negative index, its negation mirrored for a negative one |
| Layout.TotalColumns | src/Driver.js:249-252 | `floor(W / (w + p))`: that many columns fit the viewport and one more does not |
| Layout.XOffset | src/Driver.js:196-201 | the margin left of the first column: half the width the columns and paddings leave free |
| Layout.ColumnX | src/Driver.js:196-201 | the centre of column c: c tile widths, a half tile and c+1 paddings past the offset |
| Layout.ColumnSpacing | src/Driver.js:196-201 | adjacent columns are one tile width plus one padding apart |
| Layout.ColumnsCentred | src/Driver.js:196-201 | column c and column C-1-c are symmetric about the middle of the viewport |
| Layout.AreaWidth | src/Frogger.js:393-395 | `C*w + (C-1)*p` is the distance from the first column's left edge to the last column's right edge |
| Layout.AreaCentred | src/Frogger.js:262-268 | the margins left and right of the columns are equal and with the area fill the viewport |
| Layout.ChainedY | src/Driver.js:203-208 | the new tile's edge is exactly one padding from its neighbour's, on the side away from it |
| Layout.FirstRowY | src/Driver.js:209-211 | a first-row tile's top edge is one padding plus the initial offset below the top |
| Layout.PositionY | src/Frogger.js:270-278 | chained to a live neighbour in the scroll direction, else in the first row |
| Layout.FrogPositionY | src/Frog.js:75-89 | scrolling up or on first load stacked below the live story before; scrolling down stacked above the live story after; else one padding below the top |
| Layout.Map | release/Ramble.js:1064-1067 | the affine map sends min1 to min2, max1 to max2 and the range into the range |
| Layout.ScrollSpeed | src/Driver.js:105-109 | odd columns move at the maximum speed and even ones at the minimum; proportional to mass it runs from the minimum in column 0 to the maximum in the last column |
| Columns.LiveAt | src/Rider.js:52 | whether some live item carries the index |
| Columns.NeighborAt | src/Driver.js:203 | the `location.y` and height of the first live item with the index |
| Columns.LiveAtMeans | src/Rider.js:52 | a neighbour is live exactly when some live item carries its index, and a neighbour is only read from a live index |
| Columns.FirstNeighbor | src/Driver.js:203 | `getAllItemsByAttribute('index', j)[0]` read as the first live item with index j |
| Columns.AddTile | src/Driver.js:336-339 | one loop iteration touches only the tile's column |
| Columns.Accumulate | src/Driver.js:333-341 | `columns.lookup` after the loop: each tile adds its height plus the extra to the bucket of its `myCol` (the `undefined` bucket when it has none), restarting a missing or 0 bucket |
| Columns.ColumnOrder | src/Driver.js:342-346 | the bucket keys in first-set order |
| Columns.AccumulateKeys | src/Driver.js:333-346 | a bucket has a total exactly when some tile lies in it, and the key order lists exactly those buckets |
| Columns.AccumulateIsSum | src/Driver.js:336-339 | with positive tile heights the falsy-restart never fires twice: each total is the start plus the plain sum over the column's tiles, and positive |
| Columns.ColumnSumAbsent | src/Driver.js:336-339 | an empty column sums to 0 |
| Columns.AccumulateColumns | src/Driver.js:333-346 | the accumulation loop computes `columns.lookup` and its keys in first-set order |
| Columns.OneBucketWithoutColumns | release/Ramble.js:527-557 | when no tile has a `myCol`, as with the riders of release/Ramble.js, the only bucket is `undefined`, its total is the start plus the sum over all tiles, and it is both the shortest and the longest |
| Columns.ColumnTotals | src/Driver.js:342-346 | the list holds exactly the column totals, empty exactly when no tile is live |
| Columns.Extreme | src/Driver.js:347-351 | sorting and taking the first element yields the least (or greatest) element, undefined for an empty list |
| Columns.GetMinMaxColumn | src/Driver.js:323-351 | the result is the least (or greatest) column total, undefined exactly when no tile is given |
| Columns.GetLongestColumn | src/Frog.js:138-164 | the greatest column total when every column starts at the viewport height, undefined exactly when no story is given |
| Tiles.AddNum | src/Rider.js:85 | `a + undefined` is NaN; otherwise the sum |
| Tiles.SubNum | src/Rider.js:72 | `a - undefined` is NaN; otherwise the difference |
| Tiles.OrElse | src/Driver.js:112 | `x || fallback`: undefined and 0 fall back, any other value is kept |
| Tiles.HtmlEntryOf | src/Frogger.js:321-326 | the `{height, html}` entry of a tile |
| Tiles.HeightEntryOf | src/Frog.js:131-136 | the `{height}` entry of a story |
| Tiles.RiderEntryOf | release/Ramble.js:483-490 | the `{height, firstChildHeight, contents, scrollDirection}` entry of a rider |
| Tiles.Store | src/Driver.js:281-286 | `cache[index] = entry` changes only that entry |
| Tiles.Lookup | src/Rider.js:57 | `cache[index]` is the stored entry, undefined exactly when none was stored |
| Tiles.StoreThenLookup | release/Ramble.js:483-490 | reading back the stored index gives the entry; other indices are unaffected |
| Tiles.ReuseNode | release/Ramble.js:402-426 | the cached content node is reused when present; a new one is used only when absent |
| Tiles.PaddingAfterSpawnAbove | release/Ramble.js:722-725 | spawning above with a cache entry takes `firstChildHeight + padding` off the top padding; without one the padding is unchanged |
| Tiles.PaddingAfterRecycleAbove | release/Ramble.js:733-738 | recycling above adds `firstChildHeight + padding` to the top padding |
| Tiles.RecycleThenSpawnRestores | release/Ramble.js:483-490 | with this cache schema, recycling above and re-spawning the index above restores the top padding exactly and gives back the content node |
| Tiles.DriverPaddingAfterSpawnAbove | src/Rider.js:71-75 | with the `{height, html}` entry, a spawn above with a cache entry makes the top padding NaN |
| Tiles.DriverCacheLosesPadding | src/Driver.js:281-286 | with this schema, recycle above and re-spawn above leave the top padding NaN |
| RiderStep.Decide | src/Rider.js:50-97 | every branch is guarded by `!adjusted`; spawn below needs direction -1, bottom above the viewport bottom and no live tile after; spawn above needs direction 1, top below 0, no live tile before and `index >= C`; the recycles need their inward neighbour live; the fault is raised exactly when the tile is already off screen. Conversely the first guard that holds forces its action, and the step is idle exactly when no guard holds |
| RiderStep.TileAboveViewport | src/Rider.js:50-88 | scrolling up, a tile above the viewport is recycled when the tile below is live, else that tile is spawned with the fault raised |
| RiderStep.TileBelowViewport | src/Rider.js:63-97 | scrolling down, a tile below the viewport is recycled when the tile above is live, else (past the first row) that tile is spawned with the fault raised |
| RiderStep.SpawnTargetsNonNegative | src/Rider.js:63-70 | a spawned index is never negative |
| RiderStep.RecycleNeedsNeighbour | src/Rider.js:79-97 | a tile is recycled only when its inward neighbour is live |
| RiderStep.VelocityDirection | release/Ramble.js:691-697 | the direction is 1 exactly when the world's vertical velocity is at least 0.1, else -1 |
| RiderStep.Frame | src/Rider.js:50-97 | the tiles of a world step in turn, each seeing the flag the earlier steps left |
| RiderStep.AdjustedFrameIsIdle | src/Rider.js:50-97 | once the world is adjusted every later step in the frame does nothing |
| RiderStep.AtMostOneAdjustment | src/Rider.js:63-88 | the top padding changes at most once per world per frame |
| Lanes.MovedMargin | release/Ramble.js:600-602 | the margin follows the velocity only when its magnitude exceeds 0.1 |
| Lanes.ClampMargin | release/Ramble.js:603-606 | the margin is never positive after the clamp |
| Lanes.Lane.constructor | release/Ramble.js:559-579 | a lane starts at rest with `adjusted` false; its margin starts at 0, assumed from the world base class |
| Lanes.Lane.Step | release/Ramble.js:584-613 | after a step the margin is at most 0, the velocity is zeroed exactly when the clamp fires, and `adjusted` is false |
| Lanes.Lane.StepByForce | release/Ramble.js:633-643 | clears `adjusted` and moves the margin against the force |
| Lanes.ScrollBlock.constructor | release/Ramble.js:759-768 | the block takes the given height and buffer |
| Lanes.ScrollBlock.AddHeight | release/Ramble.js:772-776 | the block grows by the given amount or, when none (or 0), by the buffer |
| Engine.RiderHeight | src/Driver.js:117 | `options.height || props.width`: the cached height, else the width |
| Engine.RiderOptions | src/Driver.js:99-177 | the new rider's class, index and non-zero height, and the content node: the cached one when present; src/Driver.js sets the column `i % C`, release/Ramble.js sets none |
| Engine.SrcRiderPlacement | src/Driver.js:105-177 | a new rider takes the cached height (else the width), is centred in its column, is chained one padding from its neighbour (or in the first row), starts lower by scroll distance times speed, and gets the parity speed |
| Engine.CarriesShows | src/Driver.js:99-177 | a rider built with those options shows its index, column (src/Driver.js), height and content |
| Engine.CacheEntryOf | src/Driver.js:281-286 | what `updateCache` keeps: release/Ramble.js its height, first-child height, content node and direction; src/Driver.js the `{height, html}` entry, of which only the height is ever read |
| Engine.CacheRoundTrip | release/Ramble.js:483-490 | recycle above then spawn above: release/Ramble.js restores the top padding and the content node; src/Driver.js makes the padding NaN, as the `{height, html}` entry does, and builds a new node |
| Engine.WithAttr | release/Ramble.js:734 | setting one property changes only that property |
| Engine.StepDirection | release/Ramble.js:691-697 | release/Ramble.js steps in the velocity's direction; src/Rider.js in the driver's |
| Engine.Stepper | release/Ramble.js:697 | release/Ramble.js records the direction on the rider and changes nothing else; src/Rider.js changes nothing |
| Engine.Driver.constructor | src/Driver.js:64-80 | the driver's initial fields and column count |
| Engine.Driver.SetTotalColumns | src/Driver.js:249-252 | the column count for the viewport width |
| Engine.Driver.GetTotalColumns | release/Ramble.js:370-374 | returns a count of columns that fit while one more does not |
| Engine.Driver.PositionObj | src/Driver.js:185-213 | x is the column centre; y chains to the neighbour at `i + C*dir` or is in the first row |
| Engine.Driver.PlaceRider | src/Driver.js:105-119 | the placement of a new rider from its column speed and position |
| Engine.Driver.AddPlaced | src/Driver.js:140-177 | the rider is appended to the live list carrying its options and showing its cache entry |
| Engine.Driver.CreateRider | src/Driver.js:99-177 | one new content node; the rider is appended, placed (src/Driver.js only) and shows its cached height and content |
| Engine.Driver.CreateFromCache | release/Ramble.js:402-426 | a rider recreated from the cache shows what the cache holds for its index: the cached node in release/Ramble.js, a new node in src/Driver.js, whose entries hold none |
| Engine.Driver.UpdateCache | src/Driver.js:281-286 | only the rider's index entry changes, to what the variant's schema keeps of the rider |
| Engine.Driver.Spawn | src/Rider.js:50-76 | creates the target from its cache entry; raises the fault when asked; above, subtracts the cached first-child height plus padding from the top padding (NaN with a src/Driver.js entry) and sets `adjusted` |
| Engine.Driver.DestroyRider | src/Rider.js:84 | the rider's live record moves to the pool |
| Engine.Driver.Recycle | src/Rider.js:79-97 | caches what the variant's schema keeps of the rider (above: after setting its first-child height, which only release/Ramble.js keeps) and destroys it; above, adds to the top padding and sets `adjusted` |
| Engine.Driver.DestroyAllRiders | src/Driver.js:293-298 | after the loop no rider is live |
| Engine.Driver.CreateFirstRow | src/Driver.js:309-311 | creates exactly C riders, rider k showing index k and its cache entry |
| Engine.Driver.ReflowObjs | src/Driver.js:291-313 | destroys all riders, resets distance and direction, recounts the columns, resizes the scroll block to the viewport plus 10 and leaves exactly one live rider per column from the cache |
| Engine.Driver.GetMinMaxColumn | src/Driver.js:323-351 | the least (or greatest) per-column sum of `height + padding + offset` over the live riders |
| Engine.Driver.Act | src/Rider.js:50-100 | the chosen branch's effect on flag, padding, fault, cache, registry and `lastLocY` |
| Engine.Driver.Step | src/Rider.js:19-101 | the action is `Decide` of what the rider sees (direction per variant); at most one branch acts; spawns create the neighbour from the cache; recycles cache and destroy the rider; padding changes set `adjusted`; only an idle step records `lastLocY` |
| Frogs.FadeSettles | src/Frog.js:170-174 | a story close enough to opaque is fully opaque after n steps |
| Frogs.OpaqueStays | src/Frog.js:172-174 | opacity 1 is kept by every step |
| Frogs.FadeFromTransparent | src/Frog.js:170-174 | any story is fully opaque after 11 steps |
| Frogs.FadeIn | src/Frog.js:170-174 | a step raises a partial opacity, never past 1.1, and sets 1 otherwise |
| Frogs.Fade | src/Frog.js:170-174 | over n steps an opacity up to 1 never falls and never passes 1.1, and one of at least 1 is exactly 1 after a step |
| Frogs.FrogDecide | src/Frog.js:176-208 | the four flags of a step: spawn below, spawn above, destroy above, destroy below, each its branch's guard |
| Frogs.FrogActsOncePerKind | src/Frog.js:176-208 | at most one spawn and at most one destroy per step; a spawn above never targets a negative index |
| Frogs.FrogDestroyIgnoresNeighbours | src/Frog.js:198-208 | whether a story is destroyed does not depend on any neighbour being live |
| Frogs.FrogLeavingTop | src/Frog.js:176-202 | scrolling up, a story past the top is destroyed and in the same step spawns the story below iff none is live |
| Frogs.FrogLeavingBottom | src/Frog.js:187-208 | scrolling down, a story past the bottom is destroyed and in the same step spawns the story above iff none is live and it is not in the first row |
| Frogs.StoryHeight | src/Frog.js:42 | `options.height || random`: the cached height, else the drawn one |
| Frogs.StoryOptions | src/Frog.js:30-57 | the story's class, index, column and height |
| Frogs.StoryPlacement | src/Frog.js:30-92 | a new story is centred in its column, stacked one padding from the live story before (or after, scrolling down), starts lower by distance times speed and gets the parity speed |
| Frogs.FrogDriver.constructor | src/Frog.js:18-28 | the statics' initial values |
| Frogs.FrogDriver.SetTotalColumns | src/Frog.js:117-120 | the column count for width 300 plus padding 20 |
| Frogs.FrogDriver.PositionObj | src/Frog.js:59-92 | the column centre and the y stacked on the neighbour the direction names |
| Frogs.FrogDriver.PlaceStory | src/Frog.js:30-51 | the placement `createStory` computes |
| Frogs.FrogDriver.AddStory | src/Frog.js:53 | the story is appended carrying its options |
| Frogs.FrogDriver.CreateStory | src/Frog.js:30-57 | the story gets the cached height or the random one, is placed and appended |
| Frogs.FrogDriver.UpdateCache | src/Frog.js:131-136 | only the story's index entry changes, to exactly `{height}` |
| Frogs.FrogDriver.SpawnStory | src/Frog.js:181-183 | a story created from its cache entry |
| Frogs.FrogDriver.RecycleStory | src/Frog.js:198-208 | caches the story and destroys it |
| Frogs.FrogDriver.SpawnFor | src/Frog.js:176-196 | at most one story is spawned, one row below or above |
| Frogs.FrogDriver.Step | src/Frog.js:166-210 | the opacity fades in; the branches `FrogDecide` allows act in source order; a spawned story shows its cache entry; a destroy caches this story and removes it from the registry that already holds the spawned one |
| Frogs.FrogDriver.GetLongestColumn | src/Frog.js:138-164 | the greatest column length, starting each column at the viewport height |
| Froggers.Settings | src/Frogger.js:72-80 | width 300, padding 20, speeds 0.4 and 0.45 unless given (0 counts as absent); the offset as given, else 0 |
| Froggers.ScrollDirectionOf | src/Frogger.js:290 | 1 exactly when the last offset is greater than the current one, else -1 |
| Froggers.GrowBlock | src/Frogger.js:295-300 | the block never shrinks, reaches the target unless fetching, and becomes either its old height or the target |
| Froggers.ScrolledCovers | src/Frogger.js:286-305 | over any run of scrolls the block never shrinks and, while not fetching, ends at least one viewport plus the throttle past every offset reached |
| Froggers.IntOrElse | src/Frogger.js:76-77 | `x || fallback` for a setting: undefined and 0 fall back, any other value is kept |
| Froggers.FrogHeight | src/Frogger.js:199 | `options.height || OBJ_WIDTH`: the cached height, else the width |
| Froggers.FrogNode | src/Frogger.js:213 | `options.html || innerContainer`: the cached node, else the new one |
| Froggers.FrogOptions | src/Frogger.js:188-245 | the frog's class, index, column, non-zero height and content node |
| Froggers.FrogPlacement | src/Frogger.js:188-245 | a new frog takes the cached height (else the width), is centred, chained one padding from its neighbour or in the first row, starts lower by distance times speed and gets the parity speed |
| Froggers.CarriesFrogShows | src/Frogger.js:238 | a frog built with those properties shows its index, column, height and content |
| Froggers.FrogCacheRoundTrip | src/Frogger.js:321-326 | a cached frog recreated at the same index gets back its height and content node, whatever else was cached |
| Froggers.FroggerDriver.constructor | src/Frogger.js:72-93 | the settings, the scroll block (field height 0, element one viewport plus 10 high) and the column count |
| Froggers.FroggerDriver.SetTotalColumns | src/Frogger.js:310-313 | the column count for the viewport |
| Froggers.FroggerDriver.PositionObj | src/Frogger.js:253-281 | x is the column centre; y chains to the neighbour at `i + C*dir` or is in the first row |
| Froggers.FroggerDriver.PlaceFrog | src/Frogger.js:188-233 | the placement `createFrog` computes |
| Froggers.FroggerDriver.AddFrog | src/Frogger.js:238 | the frog is appended carrying its properties and showing its cache entry |
| Froggers.FroggerDriver.CreateFrog | src/Frogger.js:188-245 | one new content node; the frog is placed, appended and shows its cached height and content |
| Froggers.FroggerDriver.UpdateCache | src/Frogger.js:321-326 | only the frog's index entry changes, to exactly `{height, html}` |
| Froggers.FroggerDriver.OnScroll | src/Frogger.js:286-305 | direction, speed, offset and distance from the new offset; the block grows to viewport plus offset plus throttle when shorter and not fetching |
| Froggers.FroggerDriver.GetMinMaxColumn | src/Frogger.js:363-391 | the least (or greatest) per-column sum of `height + padding + offset` over the live frogs |
| Froggers.FroggerDriver.GetFrogAreaWidth | src/Frogger.js:393-395 | the distance from the first column's left edge to the last column's right edge |
| Palette.TruncDiv | release/Ramble.js:163-165 | `parseInt(a/b)` truncates toward zero |
| Palette.Channel | release/Ramble.js:163-165 | one channel of colour i of n: `trunc(diff*i/n) + start` |
| Palette.RangeColor | release/Ramble.js:163-165 | colour i of n: the three channels |
| Palette.ChannelBetween | release/Ramble.js:163-165 | every channel of a range lies between the start and end channel, and index 0 is the start |
| Palette.CreateColorRange | release/Ramble.js:145-168 | exactly `totalColors` colours (none when not positive), each `trunc(diff*i/n) + start`, between the two colours, the first equal to the start colour |
| Palette.ColorPalette.constructor | release/Ramble.js:25-43 | no gradients and no colours |
| Palette.ColorPalette.CreateGradient | release/Ramble.js:91-107 | the count defaults to 255 when absent or 0; a positive count appends one range of that many colours, colour k being colour k of the range, all between the two colours; a negative one is an error and appends nothing |
| Palette.ColorPalette.AddColor | release/Ramble.js:67-78 | appends one colour of the 255-colour range per pick, each between the two colours, keeping the earlier ones |
| Palette.ColorPalette.GetColor | release/Ramble.js:109-116 | an error exactly when no colour was added, else the picked colour |
| Wrappers.GetOr | src/Frogger.js:80 | the value when present, else the default |

## Left out

- DOM work is not modelled: element creation, styling, `innerHTML`/`appendChild` reordering, `_draw`/`getCSSText`, and the `mouseup` handler.
  Content nodes are handles; a driver builds one new handle per creation.
- Measured geometry is not computed: `getBoundingClientRect`, `offsetHeight` and `getViewportSize` are parameters.
- Randomness is not computed: `getRandomNumber`, the palette's picks and the random story height are parameters.
  - Frogs.FrogDriver.CreateStory: requires the random height to lie between 300 and 500, the range `getRandomNumber(300, 500)` draws from.
- Events, timers and the frame loop are left out: `requestAnimFrame`, the resize pause, `window.scrollTo`, and the `_update` call at the end of `onScroll`.
- Floating-point physics is left out: friction and force integration, `Vector.mag/normalize/limit/rotate`, `Item.step`/`applyForce`.
  - Lanes.Lane.Step takes the integrated velocity as a parameter.
- Reals stand in for floating point: opacity steps of 0.1 and divisions are exact in the model.
- Integers are unbounded; JavaScript's 53-bit number range is not modelled.
- `Burner.System` is not part of this model. src/Rider.js's calls to it are read with the semantics of `Registry.System`.
- Only a single world is modelled.
  - The world record `records[0]` is not stored among the records.
  - `options.world` is not set.
  - `Item.init` defaults other than width, height and mass (colour, velocity, visibility, ...) are not modelled.
- Ids are natural numbers; the registry's string ids are not modelled.
- Registry.Vector.Div: requires a non-zero divisor; JavaScript would produce Infinity or NaN.
- Palette.TruncDiv: `parseInt` on a string in exponent notation (a very small quotient) is not truncation; ordinary truncation is assumed.
- Engine.Driver.Step: requires `C > 0` because `i % 0` is NaN in JavaScript. It also requires, when speed is proportional to mass, `C != 1`, where `Utils.map` divides by zero.
  The same holds for CreateRider, Spawn, CreateFirstRow, ReflowObjs, Frogs.FrogDriver.Step/CreateStory/PositionObj and Froggers.FroggerDriver.PositionObj/CreateFrog.
- Engine.Driver.Step: the rider's `lastLocY` is returned rather than written back, because riders are values.
  Likewise Frogs.FrogDriver.Step returns the new opacity.
- Engine.Driver.Step and Frogs.FrogDriver.Step evaluate both neighbour lookups before branching; the source looks up only in the branch that needs it. The lookups have no side effects, so the outcome is the same.
- Columns.FirstNeighbor: a neighbour without a `y` or `height` property is treated as absent.
- Engine.Driver.CreateRider: in release/Ramble.js mode no placement is computed, because that driver leaves layout to the page.
- `Driver.onScroll` and `Driver.init` of src/Driver.js (event wiring, a commented-out scroll-block update) are not modelled; the Engine.Driver constructor takes the settings directly.
- src/Frog.js `reflowObjs`, `setViewportDimensions` and `setControlBlock` are not modelled; src/Frogger.js `reflowObjs`, `createFrogNUX` and `createFroggerMenu` are not modelled (DOM and commented-out code).
- Frogs.FrogDriver.CreateStory: `createStory` writes the drawn height into the cached entry object it was passed; the model leaves the cache unchanged.
- Froggers.FroggerDriver.constructor: requires the width plus padding to be positive, where JavaScript would divide by a non-positive number.
- Froggers.FrogOptions: the frog's colour comes from the palette's random pick and is not modelled.
- Frogs.FrogDriver.Step: the `Frog.scrollDirection` of 0 on first load is kept as a direction value.
- Registry.System.Add: the exception for an unknown class is an `Err` result.
  Likewise ColorPalette.CreateGradient and ColorPalette.GetColor return `Err` where the source throws.
- Registry.System.Update: a step's effect on the registry is limited to spawning one item and destroying its own record, which is what the engine's steps do; what a step does to the spawned item or to other records' properties is not modelled here.
- Engine.RiderOptions: a rider of release/Ramble.js recycled from the pool keeps properties the options do not override, since `init` merges; the model does not track that no pooled rider ever carries a `myCol`, so Engine.Driver.GetMinMaxColumn states the per-bucket extreme and Columns.OneBucketWithoutColumns states the single bucket separately.
- Columns.AccumulateColumns: the key order is first-set order, whereas JavaScript's `for ... in` lists integer-like keys in ascending order; the totals are sorted before they are read, so the result is the same.
- `Rider.prototype.init` (src/Rider.js:14, release/Ramble.js:653) is an empty override; the model lets the registry's `init` apply the options, as the base item's constructor does.
- Lanes.Lane.constructor: release/Ramble.js:559-579 does not set `marginTop`; the model starts it at 0, which it takes the world base class (not part of this model) to provide.
- Lanes: `Lane`'s construction of `mass` via `Utils.map(index, 0, totalColumns, 3, 1)` is not modelled; only the margin clamp and flag reset are.

## Findings

| source | as written | input that shows it | evidently intended | confidence | as-written member | corrected member |
|---|---|---|---|---|---|---|
| src/Driver.js:281-286 with src/Rider.js:71-75 | `updateCache` stores `{height, html}`, but spawning above reads `props.firstChildHeight` from the entry, which it does not have | a rider recycled above the viewport (index `i`, entry stored) and later respawned above at `i`: `paddingTop - (undefined + OBJ_PADDING)` is NaN | store the first-child height with the entry, as release/Ramble.js:483-490 does, so the padding change is undone exactly | high (not executed) | Tiles.DriverCacheLosesPadding | Tiles.RecycleThenSpawnRestores |
