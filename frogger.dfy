// The page driver of src/Frogger.js: frogs of a configurable width laid
// out in columns, each chained to its neighbour in the scroll direction,
// an index-keyed cache of the height and content node of recycled frogs,
// and the scroll handler that reads the scroll direction and grows the
// block that makes the page scrollable.
module Froggers {
  import opened Wrappers
  import opened Registry
  import opened Layout
  import opened Tiles
  import opened Columns
  import opened Lanes

  /** `Frogger.scrollThrottle`: how far past the viewport the scroll block
    * is grown. */
  const SCROLL_THROTTLE: real := 200.0

  /** The options `Frogger.init` reads; each may be absent. */
  datatype FroggerOptions = FroggerOptions(objWidth: Option<int>, objPadding: Option<int>,
                                           minScrollSpeed: Option<real>, maxScrollSpeed: Option<real>,
                                           initialYOffset: Option<real>)

  /** `OBJ_WIDTH`, `OBJ_PADDING`, the scroll speeds and `INITIAL_Y_OFFSET`. */
  datatype FroggerConfig = FroggerConfig(objWidth: int, objPadding: int, minScrollSpeed: real,
                                         maxScrollSpeed: real, initialYOffset: real)

  /** `x || fallback` for an integer option. */
  function IntOrElse(x: Option<int>, fallback: int): (r: int)
    ensures x.Some? && x.value != 0 ==> r == x.value
    ensures x.None? || x.value == 0 ==> r == fallback
  {
    if x.Some? && x.value != 0 then x.value else fallback
  }

  /** The settings `Frogger.init` derives: width 300, padding 20 and speeds
    * 0.4 and 0.45 unless given (a given 0 counts as absent), and the offset
    * as given (a given 0 is kept), else 0. */
  function Settings(opts: FroggerOptions): (cfg: FroggerConfig)
    ensures cfg.objWidth != 0 && cfg.objPadding != 0
    ensures cfg.minScrollSpeed != 0.0 && cfg.maxScrollSpeed != 0.0
    ensures opts.objWidth.None? ==> cfg.objWidth == 300
    ensures opts.objPadding.None? ==> cfg.objPadding == 20
    ensures opts.minScrollSpeed.None? ==> cfg.minScrollSpeed == 0.4
    ensures opts.maxScrollSpeed.None? ==> cfg.maxScrollSpeed == 0.45
    ensures cfg.initialYOffset == opts.initialYOffset.GetOr(0.0)
  {
    FroggerConfig(IntOrElse(opts.objWidth, 300), IntOrElse(opts.objPadding, 20),
                  OrElse(opts.minScrollSpeed, 0.4), OrElse(opts.maxScrollSpeed, 0.45),
                  opts.initialYOffset.GetOr(0.0))
  }

  // ---------------------------------------------------------------------
  // Scrolling
  // ---------------------------------------------------------------------

  /** The direction `onScroll` reads: 1 when the page moved up (the last
    * offset is greater than the current one), -1 otherwise. */
  function ScrollDirectionOf(lastPageYOffset: real, pageYOffset: real): (d: int)
    ensures d == 1 <==> lastPageYOffset > pageYOffset
    ensures d == -1 <==> lastPageYOffset <= pageYOffset
  {
    if lastPageYOffset > pageYOffset then 1 else -1
  }

  /** The scroll block's height after `onScroll` asks for `target`: raised
    * to `target` when it is smaller and no fetch is under way. */
  function GrowBlock(height: real, target: real, fetching: bool): (r: real)
    ensures r >= height
    ensures !fetching ==> r >= target
    ensures r == height || r == target
    ensures fetching ==> r == height
  {
    if height < target && !fetching then target else height
  }

  /** The block's height after a run of scroll events at `offsets`. */
  function Scrolled(height: real, offsets: seq<real>, viewportHeight: real, fetching: bool): real
    decreases |offsets|
  {
    if offsets == [] then height
    else Scrolled(GrowBlock(height, viewportHeight + offsets[0] + SCROLL_THROTTLE, fetching),
                  offsets[1..], viewportHeight, fetching)
  }

  /** The block never shrinks, and when nothing is being fetched it ends
    * at least one viewport plus the throttle past every offset scrolled
    * to: the page can always scroll further than it has. */
  lemma {:induction false} ScrolledCovers(height: real, offsets: seq<real>, viewportHeight: real, fetching: bool)
    ensures Scrolled(height, offsets, viewportHeight, fetching) >= height
    ensures !fetching ==> forall k :: 0 <= k < |offsets| ==>
      Scrolled(height, offsets, viewportHeight, fetching) >= viewportHeight + offsets[k] + SCROLL_THROTTLE
    decreases |offsets|
  {
    if offsets != [] {
      var h1 := GrowBlock(height, viewportHeight + offsets[0] + SCROLL_THROTTLE, fetching);
      ScrolledCovers(h1, offsets[1..], viewportHeight, fetching);
      if !fetching {
        forall k | 0 <= k < |offsets|
          ensures Scrolled(height, offsets, viewportHeight, fetching) >= viewportHeight + offsets[k] + SCROLL_THROTTLE
        {
          if k > 0 {
            assert offsets[k] == offsets[1..][k - 1];
          }
        }
      }
    }
  }

  // ---------------------------------------------------------------------
  // Creating a frog
  // ---------------------------------------------------------------------

  /** `options.height || OBJ_WIDTH`: the cached height, or the width. */
  function FrogHeight(cfg: FroggerConfig, props: Option<HtmlEntry>): real
  {
    OrElse(if props.Some? then props.value.height else None, cfg.objWidth as real)
  }

  /** `options.html || innerContainer`: the cached node, or the new one. */
  function FrogNode(props: Option<HtmlEntry>, newNode: nat): nat
  {
    ReuseNode(if props.Some? then props.value.html else None, newNode)
  }

  /** Where frog `i` of height `height` goes, given the layout and the
    * neighbour at `i + C*dir`. */
  function FrogPlace(cfg: FroggerConfig, columns: int, viewportWidth: int, dir: int, scrollDistance: real,
                     i: int, height: real, neighbor: Option<Neighbor>): Placement
    requires columns > 0
  {
    var myCol := JsRem(i, columns);
    var speed := ScrollSpeed(myCol, columns, cfg.minScrollSpeed, cfg.maxScrollSpeed, false);
    var x := ColumnX(myCol, columns, viewportWidth as real, cfg.objWidth as real, cfg.objPadding as real);
    var y := PositionY(neighbor, height, cfg.objPadding as real, cfg.initialYOffset, dir);
    Placement(x, y, y + scrollDistance * speed, speed)
  }

  /** The properties `createFrog(i, options)` hands to `add`. */
  function FrogOptions(cfg: FroggerConfig, columns: int, i: int, props: Option<HtmlEntry>, newNode: nat,
                       place: Placement): (opts: Options)
    requires columns > 0 && cfg.objWidth != 0
    ensures opts.name == Some("Frog")
    ensures "index" in opts.attrs && opts.attrs["index"] == i as real
    ensures "myCol" in opts.attrs && opts.attrs["myCol"] == JsRem(i, columns) as real
    ensures "height" in opts.attrs && opts.attrs["height"] != 0.0 && "html" in opts.nodes
  {
    Options(Some("Frog"),
            map["height" := FrogHeight(cfg, props), "text" := i as real, "index" := i as real,
                "width" := cfg.objWidth as real, "opacity" := 1.0, "borderRadius" := 10.0, "zIndex" := 0.0,
                "initX" := place.x, "initY" := place.initY, "x" := place.x, "y" := place.y,
                "scrollSpeed" := place.speed, "myCol" := JsRem(i, columns) as real],
            map["html" := FrogNode(props, newNode)])
  }

  /** A new frog takes the cached height (or the width), is centred in its
    * column, sits one padding from its neighbour on the side away from it
    * (or in the first row), starts lower by the distance already scrolled
    * times its speed, and moves at the maximum speed in odd columns and
    * the minimum in even ones. */
  lemma FrogPlacement(cfg: FroggerConfig, columns: int, viewportWidth: int, dir: int, scrollDistance: real,
                      i: int, props: Option<HtmlEntry>, newNode: nat, neighbor: Option<Neighbor>)
    requires columns > 0 && cfg.objWidth != 0
    ensures var place := FrogPlace(cfg, columns, viewportWidth, dir, scrollDistance, i, FrogHeight(cfg, props), neighbor);
            var opts := FrogOptions(cfg, columns, i, props, newNode, place);
            var h := opts.attrs["height"];
            var p := cfg.objPadding as real;
            && "x" in opts.attrs && "y" in opts.attrs && "initY" in opts.attrs && "scrollSpeed" in opts.attrs
            && (props.Some? && props.value.height.Some? && props.value.height.value != 0.0 ==> h == props.value.height.value)
            && (props.None? || props.value.height.None? ==> h == cfg.objWidth as real)
            && opts.attrs["x"] == ColumnX(JsRem(i, columns), columns, viewportWidth as real, cfg.objWidth as real, p)
            && (neighbor.Some? && dir == -1 ==>
                  (opts.attrs["y"] - h / 2.0) - (neighbor.value.y + neighbor.value.height / 2.0) == p)
            && (neighbor.Some? && dir == 1 ==>
                  (neighbor.value.y - neighbor.value.height / 2.0) - (opts.attrs["y"] + h / 2.0) == p)
            && (neighbor.None? ==> opts.attrs["y"] - h / 2.0 == p + cfg.initialYOffset)
            && opts.attrs["initY"] == opts.attrs["y"] + scrollDistance * opts.attrs["scrollSpeed"]
            && opts.attrs["scrollSpeed"] == (if JsRem(i, columns) % 2 == 1 then cfg.maxScrollSpeed else cfg.minScrollSpeed)
  {
  }

  /** What a frog created for index `target` from cache entry `props`
    * shows: its class, index, column, height and content node. */
  ghost predicate FrogShows(obj: Item, cfg: FroggerConfig, columns: int, target: int, props: Option<HtmlEntry>, node: nat)
    requires columns > 0
  {
    && obj.name == "Frog"
    && AttrOf(obj, "index") == Some(target as real)
    && AttrOf(obj, "myCol") == Some(JsRem(target, columns) as real)
    && AttrOf(obj, "height") == Some(FrogHeight(cfg, props))
    && NodeOf(obj, "html") == Some(FrogNode(props, node))
  }

  /** A frog that carries the properties `createFrog` builds shows its
    * cache entry. */
  lemma CarriesFrogShows(obj: Item, cfg: FroggerConfig, columns: int, target: int, props: Option<HtmlEntry>, node: nat,
                         place: Placement)
    requires columns > 0 && cfg.objWidth != 0
    requires Carries(obj, FrogOptions(cfg, columns, target, props, node, place))
    ensures FrogShows(obj, cfg, columns, target, props, node)
  {
    var opts := FrogOptions(cfg, columns, target, props, node, place);
    assert "index" in opts.attrs && "myCol" in opts.attrs;
    assert opts.attrs["height"] == FrogHeight(cfg, props);
    assert opts.nodes["html"] == FrogNode(props, node);
  }

  /** A frog cached when it was recycled and recreated later at the same
    * index gets back its height (when it was not 0) and its content node,
    * whatever else was cached in between at other indices. */
  lemma {:induction false} FrogCacheRoundTrip(cfg: FroggerConfig, cache: map<int, HtmlEntry>, x: Item, index: int,
                                              others: map<int, HtmlEntry>, newNode: nat)
    requires index !in others
    requires AttrOf(x, "height").Some? && AttrOf(x, "height").value != 0.0
    requires NodeOf(x, "html").Some?
    ensures var c := Store(cache, index, HtmlEntryOf(x)) + others;
            FrogHeight(cfg, Lookup(c, index)) == AttrOf(x, "height").value &&
            FrogNode(Lookup(c, index), newNode) == NodeOf(x, "html").value
  {
    var c := Store(cache, index, HtmlEntryOf(x)) + others;
    assert index in c && c[index] == HtmlEntryOf(x);
    assert Lookup(c, index) == Some(HtmlEntryOf(x));
    assert HtmlEntryOf(x).height == AttrOf(x, "height");
    assert FrogHeight(cfg, Lookup(c, index)) == AttrOf(x, "height").value;
    assert HtmlEntryOf(x).html == NodeOf(x, "html");
    assert FrogNode(Lookup(c, index), newNode) == NodeOf(x, "html").value;
  }

  class FroggerDriver {
    /** The registry the frogs live in. */
    const sys: System
    /** The block that makes the page scrollable. */
    const scrollBlock: ScrollBlock
    const cfg: FroggerConfig

    var viewportWidth: int
    var viewportHeight: int
    /** The height set on the scroll block's element. */
    var blockStyleHeight: real
    /** 1 after scrolling up the page, -1 after scrolling down. */
    var scrollDirection: int
    var scrollSpeed: real
    var scrollDistance: real
    var lastPageYOffset: real
    /** Set while more content is being fetched; the block does not grow. */
    var fetching: bool
    var totalColumns: int
    /** What each recycled index displayed. */
    var cache: map<int, HtmlEntry>
    /** The number of content nodes built so far; node handles are 1, 2, ... */
    var nodeCount: nat

    ghost predicate Valid()
      reads sys
    {
      sys.Valid() && "Frog" in sys.classes && ClassMeasured(sys.records, "Frog")
      && cfg.objWidth != 0 && cfg.objWidth + cfg.objPadding > 0
    }

    /** `Frogger.init(options)` on a viewport of the given size: the
      * settings, a new scroll block whose element is one viewport plus 10
      * high, and the column count. */
    constructor (sys: System, opts: FroggerOptions, viewportWidth: int, viewportHeight: int)
      requires sys.Valid() && "Frog" in sys.classes && ClassMeasured(sys.records, "Frog")
      requires Settings(opts).objWidth + Settings(opts).objPadding > 0
      ensures Valid()
      ensures this.sys == sys && cfg == Settings(opts) && fresh(scrollBlock)
      ensures this.viewportWidth == viewportWidth && this.viewportHeight == viewportHeight
      ensures scrollBlock.height == 0.0 && blockStyleHeight == viewportHeight as real + 10.0
      ensures totalColumns == TotalColumns(viewportWidth, cfg.objWidth, cfg.objPadding)
      ensures scrollDirection == -1 && scrollDistance == 0.0 && lastPageYOffset == 0.0 && !fetching
      ensures cache == map[] && nodeCount == 0
    {
      this.sys := sys;
      cfg := Settings(opts);
      this.viewportWidth := viewportWidth;
      this.viewportHeight := viewportHeight;
      scrollBlock := new ScrollBlock(0.0, 0.0);
      blockStyleHeight := viewportHeight as real + 10.0;
      totalColumns := TotalColumns(viewportWidth, Settings(opts).objWidth, Settings(opts).objPadding);
      scrollDirection := -1;
      scrollSpeed := 0.0;
      scrollDistance := 0.0;
      lastPageYOffset := 0.0;
      fetching := false;
      cache := map[];
      nodeCount := 0;
    }

    /** `setTotalColumns`: as many frog widths plus one padding as fit the
      * viewport. */
    method SetTotalColumns()
      requires cfg.objWidth + cfg.objPadding > 0
      modifies this`totalColumns
      ensures totalColumns == TotalColumns(viewportWidth, cfg.objWidth, cfg.objPadding)
    {
      totalColumns := TotalColumns(viewportWidth, cfg.objWidth, cfg.objPadding);
    }

    /** `positionObj(i, height)`: the column's centre and the y that chains
      * the frog to its live neighbour at `i + C*dir` (or places it in the
      * first row). */
    method PositionObj(i: int, height: real) returns (x: real, y: real)
      requires totalColumns > 0
      ensures x == ColumnX(JsRem(i, totalColumns), totalColumns, viewportWidth as real, cfg.objWidth as real, cfg.objPadding as real)
      ensures y == PositionY(NeighborAt(sys.records, i + totalColumns * scrollDirection), height,
                             cfg.objPadding as real, cfg.initialYOffset, scrollDirection)
    {
      var myCol := JsRem(i, totalColumns);
      x := ColumnX(myCol, totalColumns, viewportWidth as real, cfg.objWidth as real, cfg.objPadding as real);
      var neighbor := FirstNeighbor(sys, i + totalColumns * scrollDirection);
      y := PositionY(neighbor, height, cfg.objPadding as real, cfg.initialYOffset, scrollDirection);
    }

    /** The placement `createFrog` computes for frog `i`. */
    method PlaceFrog(i: int, height: real) returns (p: Placement)
      requires totalColumns > 0
      ensures p == FrogPlace(cfg, totalColumns, viewportWidth, scrollDirection, scrollDistance, i, height,
                             NeighborAt(sys.records, i + totalColumns * scrollDirection))
    {
      var myCol := JsRem(i, totalColumns);
      var speed := ScrollSpeed(myCol, totalColumns, cfg.minScrollSpeed, cfg.maxScrollSpeed, false);
      var x, y := PositionObj(i, height);
      p := Placement(x, y, y + scrollDistance * speed, speed);
    }

    /** The second half of `createFrog`: a new content node, the properties
      * and `add('Frog', props)`. The frog class is registered, so the frog
      * is always added. */
    method AddFrog(i: int, props: Option<HtmlEntry>, place: Placement) returns (obj: Item)
      requires Valid() && totalColumns > 0
      modifies sys, this`nodeCount
      ensures Valid()
      ensures nodeCount == old(nodeCount) + 1
      ensures sys.records == old(sys.records) + [obj]
      ensures Carries(obj, FrogOptions(cfg, totalColumns, i, props, nodeCount, place))
      ensures FrogShows(obj, cfg, totalColumns, i, props, nodeCount)
    {
      nodeCount := nodeCount + 1;
      var opts := FrogOptions(cfg, totalColumns, i, props, nodeCount, place);
      ghost var before := sys.records;
      var r := sys.Add("Frog", opts);
      if r.Err? {
        assert false;
      }
      obj := r.value;
      AppendKeepsMeasured(before, "Frog", obj);
      CarriesFrogShows(obj, cfg, totalColumns, i, props, nodeCount, place);
    }

    /** `createFrog(i, options)`: builds a content node, positions the frog
      * and adds it to the registry, which recycles a pooled frog if there
      * is one. The frog is appended to the live list with the cached
      * height and content node when there are some. */
    method CreateFrog(i: int, props: Option<HtmlEntry>) returns (obj: Item, ghost place: Placement)
      requires Valid() && totalColumns > 0
      modifies sys, this`nodeCount
      ensures Valid()
      ensures nodeCount == old(nodeCount) + 1
      ensures sys.records == old(sys.records) + [obj]
      ensures place == old(FrogPlace(cfg, totalColumns, viewportWidth, scrollDirection, scrollDistance, i,
                                     FrogHeight(cfg, props), NeighborAt(sys.records, i + totalColumns * scrollDirection)))
      ensures Carries(obj, FrogOptions(cfg, totalColumns, i, props, nodeCount, place))
      ensures FrogShows(obj, cfg, totalColumns, i, props, nodeCount)
    {
      var p := PlaceFrog(i, FrogHeight(cfg, props));
      place := p;
      obj := AddFrog(i, props, p);
    }

    /** `updateCache(obj)`: the entry at the frog's index records its
      * height and content node; no other entry changes. */
    method UpdateCache(obj: Item, index: int)
      requires AttrOf(obj, "index") == Some(index as real)
      modifies this`cache
      ensures cache == Store(old(cache), index, HtmlEntryOf(obj))
    {
      cache := cache[index := HtmlEntryOf(obj)];
    }

    /** `onScroll` at page offset `pageYOffset`: the direction and speed
      * of the scroll, the offset and distance recorded, and the scroll
      * block grown to one viewport plus the throttle past the offset when
      * it is shorter and nothing is being fetched. */
    method OnScroll(pageYOffset: real)
      modifies this`scrollDirection, this`scrollSpeed, this`lastPageYOffset, this`scrollDistance,
               this`blockStyleHeight, scrollBlock`height
      ensures scrollDirection == ScrollDirectionOf(old(lastPageYOffset), pageYOffset)
      ensures scrollSpeed == old(lastPageYOffset) - pageYOffset
      ensures lastPageYOffset == pageYOffset && scrollDistance == pageYOffset
      ensures scrollBlock.height
              == GrowBlock(old(scrollBlock.height), viewportHeight as real + pageYOffset + SCROLL_THROTTLE, fetching)
      ensures blockStyleHeight == if scrollBlock.height != old(scrollBlock.height) then scrollBlock.height
                                  else old(blockStyleHeight)
    {
      var last := lastPageYOffset;
      scrollDirection := ScrollDirectionOf(last, pageYOffset);
      scrollSpeed := last - pageYOffset;
      lastPageYOffset := pageYOffset;
      scrollDistance := pageYOffset;
      var scrollOffset := viewportHeight as real + pageYOffset + SCROLL_THROTTLE;
      if scrollBlock.height < scrollOffset && !fetching {
        scrollBlock.height := scrollOffset;
        blockStyleHeight := scrollOffset;
      }
    }

    /** `getMinMaxColumn(opt_tallest)` over the live frogs: the shortest
      * (or tallest) column length, `undefined` when no frog is live. */
    method GetMinMaxColumn(tallest: bool) returns (r: Option<real>)
      requires Valid()
      ensures r.None? <==> FilterByName(sys.records, "Frog") == []
      ensures Measured(FilterByName(sys.records, "Frog"))
      ensures r.Some? ==>
        IsExtreme(Accumulate(FilterByName(sys.records, "Frog"), 0.0, cfg.objPadding as real + cfg.initialYOffset),
                  r.value, tallest)
    {
      var objs := sys.GetAllItemsByName("Frog", None);
      ClassIsMeasured(sys.records, "Frog");
      r := Columns.GetMinMaxColumn(objs, cfg.objPadding as real, cfg.initialYOffset, tallest);
    }

    /** `getFrogAreaWidth()`: the distance from the left edge of the first
      * column to the right edge of the last. */
    function GetFrogAreaWidth(): (r: real)
      reads this
      ensures (ColumnX(totalColumns - 1, totalColumns, viewportWidth as real, cfg.objWidth as real, cfg.objPadding as real)
                 + cfg.objWidth as real / 2.0)
            - (ColumnX(0, totalColumns, viewportWidth as real, cfg.objWidth as real, cfg.objPadding as real)
                 - cfg.objWidth as real / 2.0) == r
    {
      AreaWidth(totalColumns, cfg.objWidth as real, cfg.objPadding as real)
    }
  }
}
