// The scroll-recycling driver of src/Driver.js and release/Ramble.js and
// the rider step of src/Rider.js and release/Ramble.js. The driver keeps
// the live riders in the registry, lays out new riders in columns, and
// remembers what a recycled rider displayed in an index-keyed cache; each
// rider's step decides whether to spawn its column neighbour or to recycle
// itself. One driver models both files: `ramble` selects the options
// release/Ramble.js gives a new rider, and the step is offered with the
// direction taken from the driver's scroll direction (src/Rider.js) or
// from the lane's velocity (release/Ramble.js).
module Engine {
  import opened Wrappers
  import opened Registry
  import opened Layout
  import opened Tiles
  import opened Columns
  import opened RiderStep
  import opened Lanes

  /** The driver's fixed settings: whether new riders get the options of
    * release/Ramble.js, `OBJ_MAX_WIDTH`, `OBJ_PADDING`, the scroll speeds,
    * the first row's offset and whether speed is proportional to mass. */
  datatype Config = Config(ramble: bool, objMaxWidth: int, objPadding: int,
                           minScrollSpeed: real, maxScrollSpeed: real,
                           initialYOffset: real, speedPropToMass: bool)

  /** The height src/Driver.js gives a new rider: the cached height, or the
    * width when none was cached (or it was 0). */
  function RiderHeight(cfg: Config, props: Option<RiderEntry>): real
  {
    OrElse(if props.Some? then props.value.height else None, cfg.objMaxWidth as real)
  }

  /** The placement of rider `i` of height `height` given the layout
    * (columns, viewport width, scroll direction and distance) and the
    * neighbour it chains to. */
  function Place(cfg: Config, columns: int, viewportWidth: int, dir: int, scrollDistance: real,
                 i: int, height: real, neighbor: Option<Neighbor>): Placement
    requires columns > 0 && (cfg.speedPropToMass ==> columns > 1)
  {
    var myCol := JsRem(i, columns);
    var speed := ScrollSpeed(myCol, columns, cfg.minScrollSpeed, cfg.maxScrollSpeed, cfg.speedPropToMass);
    var x := ColumnX(myCol, columns, viewportWidth as real, cfg.objMaxWidth as real, cfg.objPadding as real);
    var y := PositionY(neighbor, height, cfg.objPadding as real, cfg.initialYOffset, dir);
    Placement(x, y, y + scrollDistance * speed, speed)
  }

  /** The options `createRider(i, props)` hands to `add`, given the content
    * node it built and, for src/Driver.js, the placement. src/Driver.js
    * positions the rider and sets its speed; release/Ramble.js leaves
    * layout to the page and only sets index, size and content. */
  function RiderOptions(cfg: Config, columns: int, i: int, props: Option<RiderEntry>, newNode: nat,
                        place: Placement): (opts: Options)
    requires columns > 0 && cfg.objMaxWidth > 0
    ensures opts.name == Some("Rider")
    ensures "index" in opts.attrs && opts.attrs["index"] == i as real
    ensures !cfg.ramble ==> "myCol" in opts.attrs && opts.attrs["myCol"] == JsRem(i, columns) as real
    ensures cfg.ramble ==> "myCol" !in opts.attrs
    ensures "height" in opts.attrs && opts.attrs["height"] != 0.0
    ensures opts.nodes == map["contents" := ReuseNode(if props.Some? then props.value.contents else None, newNode)]
  {
    var myCol := JsRem(i, columns) as real;
    var width := cfg.objMaxWidth as real;
    var contents := ReuseNode(if props.Some? then props.value.contents else None, newNode);
    if cfg.ramble then
      Options(Some("Rider"), map["index" := i as real,
                                 "width" := width, "height" := width, "opacity" := 1.0],
              map["contents" := contents])
    else
      Options(Some("Rider"), map["index" := i as real, "myCol" := myCol,
                                 "width" := width, "height" := RiderHeight(cfg, props), "opacity" := 1.0,
                                 "x" := place.x, "y" := place.y, "initX" := place.x, "initY" := place.initY,
                                 "scrollSpeed" := place.speed],
              map["contents" := contents])
  }

  /** In src/Driver.js a new rider is placed in its column, one padding
    * from its live neighbour (or in the first row), starts lower by the
    * distance already scrolled times its speed, and takes its height
    * from the cache when one was stored. */
  lemma SrcRiderPlacement(cfg: Config, columns: int, viewportWidth: int, dir: int, scrollDistance: real,
                          i: int, props: Option<RiderEntry>, newNode: nat, neighbor: Option<Neighbor>)
    requires columns > 0 && (cfg.speedPropToMass ==> columns > 1) && !cfg.ramble && cfg.objMaxWidth > 0
    ensures var place := Place(cfg, columns, viewportWidth, dir, scrollDistance, i, RiderHeight(cfg, props), neighbor);
            var opts := RiderOptions(cfg, columns, i, props, newNode, place);
            var h := opts.attrs["height"];
            var p := cfg.objPadding as real;
            && "x" in opts.attrs && "y" in opts.attrs && "initY" in opts.attrs && "scrollSpeed" in opts.attrs
            && (props.Some? && props.value.height.Some? && props.value.height.value != 0.0 ==> h == props.value.height.value)
            && (props.None? || props.value.height.None? ==> h == cfg.objMaxWidth as real)
            && opts.attrs["x"] == ColumnX(JsRem(i, columns), columns, viewportWidth as real, cfg.objMaxWidth as real, p)
            && (neighbor.Some? && dir == -1 ==>
                  (opts.attrs["y"] - h / 2.0) - (neighbor.value.y + neighbor.value.height / 2.0) == p)
            && (neighbor.Some? && dir == 1 ==>
                  (neighbor.value.y - neighbor.value.height / 2.0) - (opts.attrs["y"] + h / 2.0) == p)
            && (neighbor.None? ==> opts.attrs["y"] - h / 2.0 == p + cfg.initialYOffset)
            && opts.attrs["initY"] == opts.attrs["y"] + scrollDistance * opts.attrs["scrollSpeed"]
            && (!cfg.speedPropToMass ==>
                  opts.attrs["scrollSpeed"] == (if JsRem(i, columns) % 2 == 1 then cfg.maxScrollSpeed else cfg.minScrollSpeed))
  {
  }

  /** What a rider created for index `target` from cache entry `props`
    * shows: its class, its index, its column (src/Driver.js only), its height (the cached one in
    * src/Driver.js, the width in release/Ramble.js) and its content node
    * (the cached one, or the node `node` built for it). */
  ghost predicate Shows(obj: Item, cfg: Config, columns: int, target: int, props: Option<RiderEntry>, node: nat)
    requires columns > 0
  {
    && obj.name == "Rider"
    && AttrOf(obj, "index") == Some(target as real)
    && (!cfg.ramble ==> AttrOf(obj, "myCol") == Some(JsRem(target, columns) as real))
    && AttrOf(obj, "height") == Some(if cfg.ramble then cfg.objMaxWidth as real else RiderHeight(cfg, props))
    && NodeOf(obj, "contents") == Some(ReuseNode(if props.Some? then props.value.contents else None, node))
  }

  /** A rider that carries the options `createRider` builds shows its cache
    * entry. */
  lemma CarriesShows(obj: Item, cfg: Config, columns: int, target: int, props: Option<RiderEntry>, node: nat,
                     place: Placement)
    requires columns > 0 && cfg.objMaxWidth > 0
    requires Carries(obj, RiderOptions(cfg, columns, target, props, node, place))
    ensures Shows(obj, cfg, columns, target, props, node)
  {
    var opts := RiderOptions(cfg, columns, target, props, node, place);
    assert "index" in opts.attrs && (!cfg.ramble ==> "myCol" in opts.attrs);
    assert "contents" in opts.nodes;
  }

  /** What `updateCache(x)` stores. release/Ramble.js keeps the height,
    * first-child height, content node and scroll direction; src/Driver.js
    * keeps `{height, html}`, and since a rider has no `html` and
    * `createRider` reads only `height`, `contents` and `firstChildHeight`
    * of an entry, the src entry is the height alone. */
  function CacheEntryOf(cfg: Config, x: Item): (e: RiderEntry)
    ensures e.height == AttrOf(x, "height")
    ensures cfg.ramble ==> e == RiderEntryOf(x)
    ensures !cfg.ramble ==> e.height == HtmlEntryOf(x).height
    ensures !cfg.ramble ==> e.firstChildHeight.None? && e.contents.None? && e.scrollDirection.None?
  {
    if cfg.ramble then RiderEntryOf(x) else RiderEntry(AttrOf(x, "height"), None, None, None)
  }

  /** Recycling a rider above the viewport and later spawning its index
    * above again: with the cache of release/Ramble.js the world's top
    * padding comes back to what it was and the rider gets its node back;
    * with the cache of src/Driver.js the entry has no first-child height,
    * the padding becomes NaN exactly as in `DriverCacheLosesPadding`, and
    * the rider gets a new node. */
  lemma {:induction false} CacheRoundTrip(cfg: Config, cache: map<int, RiderEntry>, x: Item, index: int,
                                          firstChildHeight: real, p: real, newNode: nat)
    requires AttrOf(x, "firstChildHeight") == Some(firstChildHeight)
    ensures var c := Store(cache, index, CacheEntryOf(cfg, x));
            var padding := cfg.objPadding as real;
            var after := PaddingAfterSpawnAbove(PaddingAfterRecycleAbove(Num(p), firstChildHeight, padding),
                                                Lookup(c, index), padding);
            && (cfg.ramble ==> after == Num(p))
            && (!cfg.ramble ==> after == NaN)
            && (!cfg.ramble ==> after == DriverPaddingAfterSpawnAbove(
                                           PaddingAfterRecycleAbove(Num(p), firstChildHeight, padding),
                                           Lookup(Store(map[], index, HtmlEntryOf(x)), index), padding))
    ensures var c := Store(cache, index, CacheEntryOf(cfg, x));
            && (cfg.ramble && NodeOf(x, "contents").Some? ==>
                  ReuseNode(Lookup(c, index).value.contents, newNode) == NodeOf(x, "contents").value)
            && (!cfg.ramble ==> ReuseNode(Lookup(c, index).value.contents, newNode) == newNode)
  {
    var padding := cfg.objPadding as real;
    StoreThenLookup(cache, index, CacheEntryOf(cfg, x), index);
    if cfg.ramble {
      RecycleThenSpawnRestores(cache, x, index, firstChildHeight, padding, p, newNode);
    } else {
      DriverCacheLosesPadding(map[], x, index, firstChildHeight, padding, p);
    }
  }

  /** `x[key] = value` on a rider before it is cached. */
  function WithAttr(x: Item, key: string, value: real): (r: Item)
    ensures r.id == x.id && r.name == x.name && r.nodes == x.nodes
    ensures AttrOf(r, key) == Some(value)
    ensures forall k :: k != key ==> AttrOf(r, k) == AttrOf(x, k)
  {
    x.(attrs := x.attrs[key := value])
  }

  /** The direction a rider steps in: the driver's scroll direction in
    * src/Driver.js, the direction of the world's vertical velocity in
    * release/Ramble.js. */
  function StepDirection(cfg: Config, scrollDirection: int, velocityY: real): (d: int)
    ensures cfg.ramble ==> (d == 1 <==> velocityY >= 0.1) && (d == -1 <==> velocityY < 0.1)
    ensures !cfg.ramble ==> d == scrollDirection
  {
    if cfg.ramble then VelocityDirection(velocityY) else scrollDirection
  }

  /** The rider as it steps: release/Ramble.js records the step's direction
    * on it as `scrollDirection`; src/Rider.js leaves it as it is. */
  function Stepper(cfg: Config, rider: Item, dir: int): (r: Item)
    ensures r.id == rider.id && r.name == rider.name && r.nodes == rider.nodes
    ensures cfg.ramble ==> AttrOf(r, "scrollDirection") == Some(dir as real)
    ensures forall k :: k != "scrollDirection" ==> AttrOf(r, k) == AttrOf(rider, k)
    ensures !cfg.ramble ==> r == rider
  {
    if cfg.ramble then WithAttr(rider, "scrollDirection", dir as real) else rider
  }

  class Driver {
    /** The registry the riders live in. */
    const sys: System
    /** The block that makes the page scrollable. */
    const scrollBlock: ScrollBlock
    const cfg: Config

    var viewportWidth: int
    var viewportHeight: int
    var totalColumns: int
    /** 1 scrolling down the page, -1 scrolling up. */
    var scrollDirection: int
    var scrollDistance: real
    /** What each recycled index displayed. */
    var cache: map<int, RiderEntry>
    /** `systemError`: set when tiles could not keep up with the scroll. */
    var systemError: bool
    /** The number of content nodes built so far; node handles are 1, 2, ... */
    var nodeCount: nat

    ghost predicate Valid()
      reads sys
    {
      sys.Valid() && "Rider" in sys.classes && ClassMeasured(sys.records, "Rider")
      && cfg.objMaxWidth > 0 && cfg.objPadding > 0
    }

    constructor (sys: System, scrollBlock: ScrollBlock, cfg: Config, viewportWidth: int, viewportHeight: int)
      requires sys.Valid() && "Rider" in sys.classes && ClassMeasured(sys.records, "Rider")
      requires cfg.objMaxWidth > 0 && cfg.objPadding > 0
      ensures Valid()
      ensures this.sys == sys && this.scrollBlock == scrollBlock && this.cfg == cfg
      ensures this.viewportWidth == viewportWidth && this.viewportHeight == viewportHeight
      ensures totalColumns == TotalColumns(viewportWidth, cfg.objMaxWidth, cfg.objPadding)
      ensures scrollDirection == -1 && scrollDistance == 0.0 && cache == map[] && !systemError
    {
      this.sys := sys;
      this.scrollBlock := scrollBlock;
      this.cfg := cfg;
      this.viewportWidth := viewportWidth;
      this.viewportHeight := viewportHeight;
      totalColumns := TotalColumns(viewportWidth, cfg.objMaxWidth, cfg.objPadding);
      scrollDirection := -1;
      scrollDistance := 0.0;
      cache := map[];
      systemError := false;
      nodeCount := 0;
    }

    /** `setTotalColumns`: as many columns of `OBJ_MAX_WIDTH` plus one
      * padding as fit the viewport. */
    method SetTotalColumns()
      requires cfg.objMaxWidth + cfg.objPadding > 0
      modifies this`totalColumns
      ensures totalColumns == TotalColumns(viewportWidth, cfg.objMaxWidth, cfg.objPadding)
    {
      totalColumns := TotalColumns(viewportWidth, cfg.objMaxWidth, cfg.objPadding);
    }

    /** `getTotalColumns` of release/Ramble.js: the same count, returned. */
    method GetTotalColumns() returns (c: int)
      requires cfg.objMaxWidth + cfg.objPadding > 0
      ensures c * (cfg.objMaxWidth + cfg.objPadding) <= viewportWidth < (c + 1) * (cfg.objMaxWidth + cfg.objPadding)
      ensures viewportWidth >= 0 ==> c >= 0
    {
      c := viewportWidth / (cfg.objMaxWidth + cfg.objPadding);
    }

    /** `positionObj(i, width, height)`: the column's centre and the y that
      * chains the tile to its live neighbour in the scroll direction (or
      * places it in the first row). */
    method PositionObj(i: int, width: real, height: real) returns (x: real, y: real)
      requires totalColumns > 0
      ensures x == ColumnX(JsRem(i, totalColumns), totalColumns, viewportWidth as real, width, cfg.objPadding as real)
      ensures y == PositionY(NeighborAt(sys.records, i + totalColumns * scrollDirection), height,
                             cfg.objPadding as real, cfg.initialYOffset, scrollDirection)
    {
      var myCol := JsRem(i, totalColumns);
      x := ColumnX(myCol, totalColumns, viewportWidth as real, width, cfg.objPadding as real);
      var neighbor := FirstNeighbor(sys, i + totalColumns * scrollDirection);
      y := PositionY(neighbor, height, cfg.objPadding as real, cfg.initialYOffset, scrollDirection);
    }

    /** The placement src/Driver.js computes for rider `i`: its column's
      * scroll speed and `positionObj(i, OBJ_MAX_WIDTH, height)`. */
    method PlaceRider(i: int, height: real) returns (p: Placement)
      requires totalColumns > 0 && (cfg.speedPropToMass ==> totalColumns > 1)
      ensures p == Place(cfg, totalColumns, viewportWidth, scrollDirection, scrollDistance, i, height,
                         NeighborAt(sys.records, i + totalColumns * scrollDirection))
    {
      var myCol := JsRem(i, totalColumns);
      var speed := ScrollSpeed(myCol, totalColumns, cfg.minScrollSpeed, cfg.maxScrollSpeed, cfg.speedPropToMass);
      var x, y := PositionObj(i, cfg.objMaxWidth as real, height);
      p := Placement(x, y, y + scrollDistance * speed, speed);
    }

    /** The second half of `createRider`: a new content node, the options
      * and `add('Rider', options)`. The rider class is registered, so the
      * rider is always added. */
    method AddPlaced(i: int, props: Option<RiderEntry>, place: Placement) returns (obj: Item)
      requires Valid() && totalColumns > 0
      modifies sys, this`nodeCount
      ensures Valid()
      ensures nodeCount == old(nodeCount) + 1
      ensures sys.records == old(sys.records) + [obj]
      ensures Carries(obj, RiderOptions(cfg, totalColumns, i, props, nodeCount, place))
      ensures Shows(obj, cfg, totalColumns, i, props, nodeCount)
    {
      nodeCount := nodeCount + 1;
      var opts := RiderOptions(cfg, totalColumns, i, props, nodeCount, place);
      ghost var before := sys.records;
      var r := sys.Add("Rider", opts);
      if r.Err? {
        assert false;
      }
      obj := r.value;
      AppendKeepsMeasured(before, "Rider", obj);
      CarriesShows(obj, cfg, totalColumns, i, props, nodeCount, place);
    }

    /** `createRider(i, props)`: builds a content node, positions the rider
      * (src/Driver.js only) and adds it to the registry, which recycles a
      * pooled rider if there is one. The new rider is appended to the live
      * list with the options' properties and the cached content node when
      * there is one. `place` is where src/Driver.js puts it. */
    method CreateRider(i: int, props: Option<RiderEntry>) returns (obj: Item, ghost place: Placement)
      requires Valid() && totalColumns > 0 && (cfg.speedPropToMass ==> totalColumns > 1)
      modifies sys, this`nodeCount
      ensures Valid()
      ensures nodeCount == old(nodeCount) + 1
      ensures sys.records == old(sys.records) + [obj]
      ensures !cfg.ramble ==>
        place == old(Place(cfg, totalColumns, viewportWidth, scrollDirection, scrollDistance, i,
                           RiderHeight(cfg, props), NeighborAt(sys.records, i + totalColumns * scrollDirection)))
      ensures Carries(obj, RiderOptions(cfg, totalColumns, i, props, nodeCount, place))
      ensures Shows(obj, cfg, totalColumns, i, props, nodeCount)
    {
      var p := Placement(0.0, 0.0, 0.0, 0.0);
      if !cfg.ramble {
        p := PlaceRider(i, RiderHeight(cfg, props));
      }
      place := p;
      obj := AddPlaced(i, props, p);
    }

    /** `createRider(i, cache[i])`: rider `i` recreated from what the cache
      * holds for it. */
    method CreateFromCache(i: int) returns (obj: Item)
      requires Valid() && totalColumns > 0 && (cfg.speedPropToMass ==> totalColumns > 1)
      modifies sys, this`nodeCount
      ensures Valid()
      ensures nodeCount == old(nodeCount) + 1
      ensures sys.records == old(sys.records) + [obj]
      ensures Shows(obj, cfg, totalColumns, i, Lookup(cache, i), nodeCount)
    {
      ghost var place;
      obj, place := CreateRider(i, Lookup(cache, i));
    }

    /** `updateCache(obj)`: the entry at the rider's index records what
      * the driver's cache schema keeps of the rider; no other entry
      * changes. */
    method UpdateCache(obj: Item, index: int)
      requires AttrOf(obj, "index") == Some(index as real)
      modifies this`cache
      ensures cache == Store(old(cache), index, CacheEntryOf(cfg, obj))
    {
      cache := cache[index := CacheEntryOf(cfg, obj)];
    }

    /** The spawning branches of `step`: raise `systemError` on a fault and
      * create rider `target` from its cache entry; spawning above also
      * takes the cached first-child height off the world's top padding and
      * sets `adjusted`. */
    method Spawn(world: Lane, target: int, fault: bool, above: bool) returns (obj: Item)
      requires Valid() && totalColumns > 0 && (cfg.speedPropToMass ==> totalColumns > 1)
      modifies sys, world`paddingTop, world`adjusted, this`nodeCount, this`systemError
      ensures Valid()
      ensures systemError == (old(systemError) || fault)
      ensures nodeCount == old(nodeCount) + 1
      ensures sys.records == old(sys.records) + [obj]
      ensures Shows(obj, cfg, totalColumns, target, Lookup(cache, target), nodeCount)
      ensures above ==> world.paddingTop == PaddingAfterSpawnAbove(old(world.paddingTop), Lookup(cache, target), cfg.objPadding as real)
      ensures above ==> world.adjusted
      ensures !above ==> world.paddingTop == old(world.paddingTop) && world.adjusted == old(world.adjusted)
    {
      if fault {
        systemError := true;
      }
      obj := CreateFromCache(target);
      if above {
        world.paddingTop := PaddingAfterSpawnAbove(world.paddingTop, Lookup(cache, target), cfg.objPadding as real);
        world.adjusted := true;
      }
    }

    /** `System.destroyItem(obj)` on a rider: its live record moves to the
      * pool. */
    method DestroyRider(obj: Item)
      requires Valid()
      modifies sys
      ensures Valid()
      ensures old(FindById(sys.records, obj.id)).Some? ==>
        sys.records == RemoveAt(old(sys.records), old(FindById(sys.records, obj.id)).value)
      ensures old(FindById(sys.records, obj.id)).None? ==> sys.records == old(sys.records)
    {
      ghost var before := sys.records;
      sys.DestroyItem(obj);
      if FindById(before, obj.id).Some? {
        RemoveKeepsMeasured(before, "Rider", FindById(before, obj.id).value);
      }
    }

    /** The recycling branches of `step`: cache the rider (above: with its
      * first-child height) and destroy it; recycling above also adds the
      * first-child height to the world's top padding and sets `adjusted`. */
    method Recycle(world: Lane, rider: Item, index: int, firstChildHeight: real, above: bool)
      requires Valid()
      requires AttrOf(rider, "index") == Some(index as real)
      modifies sys, world`paddingTop, world`adjusted, this`cache
      ensures Valid()
      ensures above ==> cache == Store(old(cache), index, CacheEntryOf(cfg, WithAttr(rider, "firstChildHeight", firstChildHeight)))
      ensures !above ==> cache == Store(old(cache), index, CacheEntryOf(cfg, rider))
      ensures old(FindById(sys.records, rider.id)).Some? ==>
        sys.records == RemoveAt(old(sys.records), old(FindById(sys.records, rider.id)).value)
      ensures old(FindById(sys.records, rider.id)).None? ==> sys.records == old(sys.records)
      ensures above ==> world.paddingTop == PaddingAfterRecycleAbove(old(world.paddingTop), firstChildHeight, cfg.objPadding as real)
      ensures above ==> world.adjusted
      ensures !above ==> world.paddingTop == old(world.paddingTop) && world.adjusted == old(world.adjusted)
    {
      var cached := if above then WithAttr(rider, "firstChildHeight", firstChildHeight) else rider;
      UpdateCache(cached, index);
      DestroyRider(cached);
      if above {
        world.paddingTop := PaddingAfterRecycleAbove(world.paddingTop, firstChildHeight, cfg.objPadding as real);
        world.adjusted := true;
      }
    }

    /** The destroy loop of `reflowObjs`: every live rider, in the order
      * `getAllItemsByName('Rider')` lists them, is destroyed; afterwards no
      * rider is live. */
    method DestroyAllRiders()
      requires Valid()
      modifies sys
      ensures Valid()
      ensures FilterByName(sys.records, "Rider") == []
    {
      var objs := sys.GetAllItemsByName("Rider", None);
      var i := 0;
      while i < |objs|
        invariant 0 <= i <= |objs|
        invariant Valid()
        invariant FilterByName(sys.records, "Rider") == objs[i..]
      {
        UniqueLiveIds(sys.records, sys.pool);
        DestroyFirstNamed(sys.records, "Rider");
        DestroyRider(objs[i]);
        i := i + 1;
      }
    }

    /** The create loop of `reflowObjs`: riders `0 .. C-1` are created in
      * turn, each from its cache entry. */
    method CreateFirstRow()
      requires Valid() && (cfg.speedPropToMass ==> totalColumns != 1)
      requires FilterByName(sys.records, "Rider") == []
      modifies sys, this`nodeCount
      ensures Valid()
      ensures nodeCount == old(nodeCount) + (if totalColumns > 0 then totalColumns else 0)
      ensures |FilterByName(sys.records, "Rider")| == (if totalColumns > 0 then totalColumns else 0)
      ensures forall k :: 0 <= k < |FilterByName(sys.records, "Rider")| ==>
        Shows(FilterByName(sys.records, "Rider")[k], cfg, totalColumns, k, Lookup(cache, k), old(nodeCount) + k + 1)
    {
      var i := 0;
      ghost var riders: seq<Item> := [];
      while i < totalColumns
        invariant 0 <= i <= (if totalColumns > 0 then totalColumns else 0)
        invariant Valid()
        invariant nodeCount == old(nodeCount) + i
        invariant riders == FilterByName(sys.records, "Rider") && |riders| == i
        invariant forall k :: 0 <= k < i ==> Shows(riders[k], cfg, totalColumns, k, Lookup(cache, k), old(nodeCount) + k + 1)
      {
        ghost var before := sys.records;
        var obj := CreateFromCache(i);
        FilterByNameAppend(before, obj, "Rider");
        riders := riders + [obj];
        i := i + 1;
      }
    }

    /** `reflowObjs()` after the viewport was measured at `width` by
      * `height`: every live rider is destroyed, the scroll distance is
      * reset, the columns are recounted for the new width, the direction is
      * reset to -1, the scroll block is made 10 taller than the viewport
      * and the first row of riders is created from the cache. Afterwards
      * the live riders are exactly one per column, rider `k` showing index
      * `k` and what the cache holds for it. */
    method ReflowObjs(width: int, height: int)
      requires Valid()
      requires cfg.speedPropToMass ==> TotalColumns(width, cfg.objMaxWidth, cfg.objPadding) != 1
      modifies sys, scrollBlock`height, this`viewportWidth, this`viewportHeight, this`scrollDistance,
               this`totalColumns, this`scrollDirection, this`nodeCount
      ensures Valid()
      ensures viewportWidth == width && viewportHeight == height
      ensures scrollDistance == 0.0 && scrollDirection == -1
      ensures totalColumns == TotalColumns(width, cfg.objMaxWidth, cfg.objPadding)
      ensures scrollBlock.height == height as real + 10.0
      ensures |FilterByName(sys.records, "Rider")| == (if totalColumns > 0 then totalColumns else 0)
      ensures forall k :: 0 <= k < |FilterByName(sys.records, "Rider")| ==>
        Shows(FilterByName(sys.records, "Rider")[k], cfg, totalColumns, k, Lookup(cache, k), old(nodeCount) + k + 1)
    {
      viewportWidth, viewportHeight := width, height;
      DestroyAllRiders();
      scrollDistance := 0.0;
      SetTotalColumns();
      scrollDirection := -1;
      scrollBlock.height := height as real + 10.0;
      CreateFirstRow();
    }

    /** `getMinMaxColumn(opt_tallest)` over the live riders: the shortest
      * (or tallest) column length, `undefined` when no rider is live. */
    method GetMinMaxColumn(tallest: bool) returns (r: Option<real>)
      requires Valid()
      ensures r.None? <==> FilterByName(sys.records, "Rider") == []
      ensures Measured(FilterByName(sys.records, "Rider"))
      ensures r.Some? ==>
        IsExtreme(Accumulate(FilterByName(sys.records, "Rider"), 0.0, cfg.objPadding as real + cfg.initialYOffset),
                  r.value, tallest)
    {
      var objs := sys.GetAllItemsByName("Rider", None);
      ClassIsMeasured(sys.records, "Rider");
      r := Columns.GetMinMaxColumn(objs, cfg.objPadding as real, cfg.initialYOffset, tallest);
    }

    /** The branch of `step` that `a` chose, acting on the world, the
      * registry and the cache. */
    method Act(world: Lane, rider: Item, index: int, a: Action, top: real, firstChildHeight: real)
      returns (spawned: Option<Item>, lastLocY: Option<real>)
      requires Valid() && totalColumns > 0 && (cfg.speedPropToMass ==> totalColumns > 1)
      requires AttrOf(rider, "index") == Some(index as real)
      requires Adjusts(a) ==> !world.adjusted
      modifies sys, world`paddingTop, world`adjusted, this`nodeCount, this`cache, this`systemError
      ensures Valid()
      ensures world.adjusted == (old(world.adjusted) || Adjusts(a))
      ensures world.paddingTop ==
        match a
        case SpawnAbove(t, _) => PaddingAfterSpawnAbove(old(world.paddingTop), Lookup(old(cache), t), cfg.objPadding as real)
        case RecycleAbove => PaddingAfterRecycleAbove(old(world.paddingTop), firstChildHeight, cfg.objPadding as real)
        case _ => old(world.paddingTop)
      ensures systemError == (old(systemError) || ((a.SpawnBelow? || a.SpawnAbove?) && a.fault))
      ensures cache ==
        match a
        case RecycleAbove => Store(old(cache), index, CacheEntryOf(cfg, WithAttr(rider, "firstChildHeight", firstChildHeight)))
        case RecycleBelow => Store(old(cache), index, CacheEntryOf(cfg, rider))
        case _ => old(cache)
      ensures spawned.Some? <==> a.SpawnBelow? || a.SpawnAbove?
      ensures spawned.Some? ==> sys.records == old(sys.records) + [spawned.value]
      ensures spawned.Some? ==> Shows(spawned.value, cfg, totalColumns, a.target, Lookup(old(cache), a.target), nodeCount)
      ensures (a.RecycleAbove? || a.RecycleBelow?) && old(FindById(sys.records, rider.id)).Some? ==>
        sys.records == RemoveAt(old(sys.records), old(FindById(sys.records, rider.id)).value)
      ensures a.Idle? ==> sys.records == old(sys.records) && nodeCount == old(nodeCount)
      ensures lastLocY == (if a.Idle? then Some(top) else None)
    {
      spawned, lastLocY := None, None;
      match a {
        case SpawnBelow(target, fault) =>
          var obj := Spawn(world, target, fault, false);
          spawned := Some(obj);
        case SpawnAbove(target, fault) =>
          var obj := Spawn(world, target, fault, true);
          spawned := Some(obj);
        case RecycleAbove =>
          Recycle(world, rider, index, firstChildHeight, true);
        case RecycleBelow =>
          Recycle(world, rider, index, firstChildHeight, false);
        case Idle =>
          lastLocY := Some(top);
      }
    }

    /** `Rider.prototype.step` for the rider `rider` at `index`, stepping in
      * `world` after measuring its `top`, `height` and its first child's
      * height. src/Rider.js steps in the driver's scroll direction;
      * release/Ramble.js derives the direction from the world's velocity
      * and records it on the rider, so a cached rider remembers it. The
      * four guarded branches are decided by `Decide` on what the rider
      * sees; then the chosen branch acts: spawning below creates the rider
      * `C` further on from the cache; spawning above creates the rider `C`
      * back and takes the cached first-child height off the world's top
      * padding; recycling above caches the rider with its first-child
      * height, destroys it and adds that height to the top padding;
      * recycling below caches and destroys it. The padding changes set the
      * world's `adjusted` flag; a step that does nothing records
      * `lastLocY`. */
    method Step(world: Lane, rider: Item, index: int, top: real, height: real, firstChildHeight: real)
      returns (a: Action, spawned: Option<Item>, lastLocY: Option<real>)
      requires Valid() && totalColumns > 0 && (cfg.speedPropToMass ==> totalColumns > 1)
      requires AttrOf(rider, "index") == Some(index as real)
      modifies sys, world`paddingTop, world`adjusted, this`nodeCount, this`cache, this`systemError
      ensures Valid()
      ensures var dir := StepDirection(cfg, scrollDirection, world.velocityY);
              a == Decide(View(old(world.adjusted), dir, index, totalColumns, top, height, viewportHeight as real,
                               old(LiveAt(sys.records, index + totalColumns)),
                               old(LiveAt(sys.records, index - totalColumns))))
      ensures world.adjusted == (old(world.adjusted) || Adjusts(a))
      ensures world.paddingTop ==
        match a
        case SpawnAbove(t, _) => PaddingAfterSpawnAbove(old(world.paddingTop), Lookup(old(cache), t), cfg.objPadding as real)
        case RecycleAbove => PaddingAfterRecycleAbove(old(world.paddingTop), firstChildHeight, cfg.objPadding as real)
        case _ => old(world.paddingTop)
      ensures systemError == (old(systemError) || ((a.SpawnBelow? || a.SpawnAbove?) && a.fault))
      ensures var me := Stepper(cfg, rider, StepDirection(cfg, scrollDirection, world.velocityY));
              cache ==
                match a
                case RecycleAbove => Store(old(cache), index, CacheEntryOf(cfg, WithAttr(me, "firstChildHeight", firstChildHeight)))
                case RecycleBelow => Store(old(cache), index, CacheEntryOf(cfg, me))
                case _ => old(cache)
      ensures spawned.Some? <==> a.SpawnBelow? || a.SpawnAbove?
      ensures spawned.Some? ==> sys.records == old(sys.records) + [spawned.value]
      ensures spawned.Some? ==> Shows(spawned.value, cfg, totalColumns, a.target, Lookup(old(cache), a.target), nodeCount)
      ensures (a.RecycleAbove? || a.RecycleBelow?) && old(FindById(sys.records, rider.id)).Some? ==>
        sys.records == RemoveAt(old(sys.records), old(FindById(sys.records, rider.id)).value)
      ensures a.Idle? ==> sys.records == old(sys.records) && nodeCount == old(nodeCount)
      ensures lastLocY == (if a.Idle? then Some(top) else None)
    {
      var dir := StepDirection(cfg, scrollDirection, world.velocityY);
      var me := Stepper(cfg, rider, dir);
      var afterLive := LiveAt(sys.records, index + totalColumns);
      var beforeLive := LiveAt(sys.records, index - totalColumns);
      a := Decide(View(world.adjusted, dir, index, totalColumns, top, height, viewportHeight as real,
                       afterLive, beforeLive));
      spawned, lastLocY := Act(world, me, index, a, top, firstChildHeight);
    }
  }
}
