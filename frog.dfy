// The story driver of src/Frog.js: stories of fixed width laid out in
// columns, each fading in, spawning its column neighbour while it is near
// the viewport and recycling itself once it has left it. Unlike the rider
// step, the four branches of a story's step do not return, are not
// guarded by a world flag and destroy without looking for a neighbour, so
// one step can both spawn a neighbour and destroy the story.
module Frogs {
  import opened Wrappers
  import opened Registry
  import opened Layout
  import opened Tiles
  import opened Columns

  const OBJ_WIDTH: int := 300
  const OBJ_PADDING: int := 20
  const MIN_SCROLL_SPEED: real := 0.45
  const MAX_SCROLL_SPEED: real := 0.6

  // ---------------------------------------------------------------------
  // Opacity
  // ---------------------------------------------------------------------

  /** The opacity update at the start of `step`: a partial opacity rises,
    * never past 1.1, and an opacity of 1 or more is set to exactly 1. */
  function FadeIn(opacity: real): (r: real)
    ensures opacity < 1.0 ==> opacity < r <= 1.1
    ensures opacity >= 1.0 ==> r == 1.0
  {
    if opacity < 1.0 then opacity + 0.1 else 1.0
  }

  /** The opacity after `n` steps: it never falls and never passes 1.1,
    * and once at least 1 it is exactly 1 after any further step. */
  function Fade(opacity: real, n: nat): (r: real)
    ensures opacity <= 1.0 ==> opacity <= r <= 1.1
    ensures opacity >= 1.0 && n > 0 ==> r == 1.0
    decreases n
  {
    if n == 0 then opacity else Fade(FadeIn(opacity), n - 1)
  }

  /** A story whose opacity is at least `1 - 0.1*(n-1)` is fully opaque
    * after `n` steps. */
  lemma {:induction false} FadeSettles(opacity: real, n: nat)
    requires n >= 1 && opacity >= 1.0 - 0.1 * ((n - 1) as real)
    ensures Fade(opacity, n) == 1.0
    decreases n
  {
    if opacity >= 1.0 {
      OpaqueStays(n - 1);
    } else {
      FadeSettles(opacity + 0.1, n - 1);
    }
  }

  /** Opacity 1 is kept by every step. */
  lemma {:induction false} OpaqueStays(n: nat)
    ensures Fade(1.0, n) == 1.0
  {
    if n > 0 {
      OpaqueStays(n - 1);
    }
  }

  /** Any story that starts visible at all is fully opaque after 11 steps
    * and stays so. */
  lemma FadeFromTransparent(opacity: real, n: nat)
    requires opacity >= 0.0 && n >= 11
    ensures Fade(opacity, n) == 1.0
  {
    FadeSettles(opacity, n);
  }

  // ---------------------------------------------------------------------
  // The step's branches
  // ---------------------------------------------------------------------

  /** What a story sees when it steps: the scroll direction (0 on first
    * load, -1 scrolling up, 1 scrolling down), its index, the number of
    * columns, its `location.y` and height, the world's height, and whether
    * a story is live at `index + columns` (after) and at `index - columns`
    * (before). */
  datatype FrogView = FrogView(dir: int, index: int, columns: int, y: real, height: real,
                               worldHeight: real, afterLive: bool, beforeLive: bool)

  /** Which of the four branches of `step` fire. */
  datatype FrogPlan = FrogPlan(spawnBelow: bool, spawnAbove: bool, destroyAbove: bool, destroyBelow: bool)

  /** The four branches of `step`, each tested on its own. */
  function FrogDecide(v: FrogView): FrogPlan
  {
    FrogPlan((v.dir == -1 || v.dir == 0) && v.y < v.worldHeight + v.height / 2.0 && !v.afterLive,
             v.dir == 1 && v.y > v.height / 2.0 && !v.beforeLive && v.index >= v.columns,
             v.dir == -1 && v.y < -v.height / 2.0,
             v.dir == 1 && v.y > v.worldHeight + v.height / 2.0)
  }

  /** At most one story is spawned and the story is destroyed at most once
    * per step, and a spawned index is never negative when the story's
    * own index is not. */
  lemma FrogActsOncePerKind(v: FrogView)
    ensures !(FrogDecide(v).spawnBelow && FrogDecide(v).spawnAbove)
    ensures !(FrogDecide(v).destroyAbove && FrogDecide(v).destroyBelow)
    ensures FrogDecide(v).spawnAbove ==> v.index - v.columns >= 0
    ensures FrogDecide(v).spawnBelow && v.index >= 0 && v.columns > 0 ==> v.index + v.columns >= 0
  {
  }

  /** Whether a story is destroyed depends only on its position and the
    * direction, never on a neighbour being live. */
  lemma FrogDestroyIgnoresNeighbours(v: FrogView, afterLive: bool, beforeLive: bool)
    ensures var w := v.(afterLive := afterLive, beforeLive := beforeLive);
            FrogDecide(w).destroyAbove == FrogDecide(v).destroyAbove &&
            FrogDecide(w).destroyBelow == FrogDecide(v).destroyBelow
  {
  }

  /** Scrolling up, a story that has left the top of a world at least as
    * high as the story is tall is destroyed, and in the same step the
    * story below it is spawned when none is live. */
  lemma FrogLeavingTop(v: FrogView)
    requires v.dir == -1 && v.y < -v.height / 2.0 && v.worldHeight + v.height >= 0.0
    ensures FrogDecide(v).destroyAbove
    ensures FrogDecide(v).spawnBelow <==> !v.afterLive
  {
  }

  /** Scrolling down, a story that has left the bottom of the world is
    * destroyed, and in the same step the story above it is spawned when
    * none is live and the story is not in the first row. */
  lemma FrogLeavingBottom(v: FrogView)
    requires v.dir == 1 && v.y > v.worldHeight + v.height / 2.0 && v.worldHeight >= 0.0
    ensures FrogDecide(v).destroyBelow
    ensures FrogDecide(v).spawnAbove <==> !v.beforeLive && v.index >= v.columns
  {
  }

  // ---------------------------------------------------------------------
  // Creating a story
  // ---------------------------------------------------------------------

  /** The index a step spawns: one row below, or else one row above. */
  function SpawnTarget(plan: FrogPlan, index: int, columns: int): int
  {
    if plan.spawnBelow then index + columns else index - columns
  }

  /** `options.height || random`: the cached height, or the random one. */
  function StoryHeight(props: Option<HeightEntry>, randomHeight: real): real
  {
    OrElse(if props.Some? then props.value.height else None, randomHeight)
  }

  /** Where story `i` of height `height` goes, given the layout and its
    * neighbours before (`i - C`) and after (`i + C`). */
  function StoryPlace(columns: int, viewportWidth: int, dir: int, scrollDistance: real, i: int, height: real,
                      before: Option<Neighbor>, after: Option<Neighbor>): Placement
    requires columns > 0
  {
    var myCol := JsRem(i, columns);
    var speed := ScrollSpeed(myCol, columns, MIN_SCROLL_SPEED, MAX_SCROLL_SPEED, false);
    var x := ColumnX(myCol, columns, viewportWidth as real, OBJ_WIDTH as real, OBJ_PADDING as real);
    var y := FrogPositionY(before, after, height, OBJ_PADDING as real, dir);
    Placement(x, y, y + scrollDistance * speed, speed)
  }

  /** The options `createStory(i, props)` hands to `add`. */
  function StoryOptions(columns: int, i: int, height: real, place: Placement): (opts: Options)
    requires columns > 0
    ensures opts.name == Some("Frog")
    ensures "index" in opts.attrs && opts.attrs["index"] == i as real
    ensures "myCol" in opts.attrs && opts.attrs["myCol"] == JsRem(i, columns) as real
    ensures "height" in opts.attrs && opts.attrs["height"] == height
  {
    Options(Some("Frog"),
            map["text" := i as real, "index" := i as real, "width" := OBJ_WIDTH as real, "height" := height,
                "opacity" := 1.0, "initX" := place.x, "initY" := place.initY, "x" := place.x, "y" := place.y,
                "scrollSpeed" := place.speed, "myCol" := JsRem(i, columns) as real],
            map[])
  }

  /** A new story is centred in its column, stacked one padding below a
    * live story before it (scrolling up or on first load) or above a live
    * story after it (scrolling down), starts lower by the distance already
    * scrolled times its speed, and moves at the maximum speed in odd
    * columns and the minimum in even ones. */
  lemma StoryPlacement(columns: int, viewportWidth: int, dir: int, scrollDistance: real, i: int, height: real,
                       before: Option<Neighbor>, after: Option<Neighbor>)
    requires columns > 0
    ensures var place := StoryPlace(columns, viewportWidth, dir, scrollDistance, i, height, before, after);
            var opts := StoryOptions(columns, i, height, place);
            var p := OBJ_PADDING as real;
            && "x" in opts.attrs && "y" in opts.attrs && "initY" in opts.attrs && "scrollSpeed" in opts.attrs
            && opts.attrs["x"] == ColumnX(JsRem(i, columns), columns, viewportWidth as real, OBJ_WIDTH as real, p)
            && ((dir == -1 || dir == 0) && before.Some? ==>
                  (opts.attrs["y"] - height / 2.0) - (before.value.y + before.value.height / 2.0) == p)
            && (dir == 1 && after.Some? ==>
                  (after.value.y - after.value.height / 2.0) - (opts.attrs["y"] + height / 2.0) == p)
            && opts.attrs["initY"] == opts.attrs["y"] + scrollDistance * opts.attrs["scrollSpeed"]
            && opts.attrs["scrollSpeed"] == (if JsRem(i, columns) % 2 == 1 then MAX_SCROLL_SPEED else MIN_SCROLL_SPEED)
  {
  }

  /** What a story created for index `target` from cache entry `props`
    * shows: its class, its index and column, and its height (the cached
    * one, or the random one). */
  ghost predicate StoryShows(obj: Item, columns: int, target: int, props: Option<HeightEntry>, randomHeight: real)
    requires columns > 0
  {
    && obj.name == "Frog"
    && AttrOf(obj, "index") == Some(target as real)
    && AttrOf(obj, "myCol") == Some(JsRem(target, columns) as real)
    && AttrOf(obj, "height") == Some(StoryHeight(props, randomHeight))
  }

  class FrogDriver {
    /** The registry the stories live in. */
    const sys: System

    var viewportWidth: int
    var viewportHeight: int
    /** 0 on first load, -1 scrolling up, 1 scrolling down. */
    var scrollDirection: int
    var scrollDistance: real
    var totalColumns: int
    /** `cache.lookup`: the height of each recycled index. */
    var cache: map<int, HeightEntry>

    ghost predicate Valid()
      reads sys
    {
      sys.Valid() && "Frog" in sys.classes && ClassMeasured(sys.records, "Frog")
    }

    /** The driver's initial state after the viewport was measured. */
    constructor (sys: System, viewportWidth: int, viewportHeight: int)
      requires sys.Valid() && "Frog" in sys.classes && ClassMeasured(sys.records, "Frog")
      ensures Valid()
      ensures this.sys == sys && this.viewportWidth == viewportWidth && this.viewportHeight == viewportHeight
      ensures scrollDirection == 0 && scrollDistance == 0.0 && totalColumns == 0 && cache == map[]
    {
      this.sys := sys;
      this.viewportWidth := viewportWidth;
      this.viewportHeight := viewportHeight;
      scrollDirection := 0;
      scrollDistance := 0.0;
      totalColumns := 0;
      cache := map[];
    }

    /** `setTotalColumns`: as many story widths plus one padding as fit the
      * viewport. */
    method SetTotalColumns()
      modifies this`totalColumns
      ensures totalColumns == TotalColumns(viewportWidth, OBJ_WIDTH, OBJ_PADDING)
    {
      totalColumns := TotalColumns(viewportWidth, OBJ_WIDTH, OBJ_PADDING);
    }

    /** `positionObj(i, height)`: the column's centre, and a y stacked on
      * the live story before (scrolling up or on first load) or after
      * (scrolling down), else one padding below the top. Only the
      * neighbour the direction needs is looked up. */
    method PositionObj(i: int, height: real) returns (x: real, y: real)
      requires totalColumns > 0
      ensures x == ColumnX(JsRem(i, totalColumns), totalColumns, viewportWidth as real, OBJ_WIDTH as real, OBJ_PADDING as real)
      ensures y == FrogPositionY(NeighborAt(sys.records, i - totalColumns), NeighborAt(sys.records, i + totalColumns),
                                 height, OBJ_PADDING as real, scrollDirection)
    {
      var myCol := JsRem(i, totalColumns);
      x := ColumnX(myCol, totalColumns, viewportWidth as real, OBJ_WIDTH as real, OBJ_PADDING as real);
      var before: Option<Neighbor> := None;
      var after: Option<Neighbor> := None;
      if scrollDirection == -1 || scrollDirection == 0 {
        before := FirstNeighbor(sys, i - totalColumns);
      }
      if scrollDirection == 1 {
        after := FirstNeighbor(sys, i + totalColumns);
      }
      y := FrogPositionY(before, after, height, OBJ_PADDING as real, scrollDirection);
    }

    /** The placement `createStory` computes for story `i`. */
    method PlaceStory(i: int, height: real) returns (p: Placement)
      requires totalColumns > 0
      ensures p == StoryPlace(totalColumns, viewportWidth, scrollDirection, scrollDistance, i, height,
                              NeighborAt(sys.records, i - totalColumns), NeighborAt(sys.records, i + totalColumns))
    {
      var myCol := JsRem(i, totalColumns);
      var speed := ScrollSpeed(myCol, totalColumns, MIN_SCROLL_SPEED, MAX_SCROLL_SPEED, false);
      var x, y := PositionObj(i, height);
      p := Placement(x, y, y + scrollDistance * speed, speed);
    }

    /** `add('Frog', options)` with the options of `createStory`. The story
      * class is registered, so the story is always added. */
    method AddStory(i: int, height: real, place: Placement) returns (obj: Item)
      requires Valid() && totalColumns > 0
      modifies sys
      ensures Valid()
      ensures sys.records == old(sys.records) + [obj]
      ensures Carries(obj, StoryOptions(totalColumns, i, height, place))
    {
      var opts := StoryOptions(totalColumns, i, height, place);
      ghost var before := sys.records;
      var r := sys.Add("Frog", opts);
      if r.Err? {
        assert false;
      }
      obj := r.value;
      AppendKeepsMeasured(before, "Frog", obj);
    }

    /** `createStory(i, props)`: a story of the cached height (or the
      * random height `randomHeight` that `getRandomNumber(300, 500)` drew),
      * placed in its column and added to the registry, which recycles a
      * pooled story if there is one. */
    method CreateStory(i: int, props: Option<HeightEntry>, randomHeight: real) returns (obj: Item, ghost place: Placement)
      requires Valid() && totalColumns > 0 && 300.0 <= randomHeight <= 500.0
      modifies sys
      ensures Valid()
      ensures sys.records == old(sys.records) + [obj]
      ensures place == old(StoryPlace(totalColumns, viewportWidth, scrollDirection, scrollDistance, i,
                                      StoryHeight(props, randomHeight),
                                      NeighborAt(sys.records, i - totalColumns), NeighborAt(sys.records, i + totalColumns)))
      ensures Carries(obj, StoryOptions(totalColumns, i, StoryHeight(props, randomHeight), place))
      ensures StoryShows(obj, totalColumns, i, props, randomHeight)
    {
      var height := StoryHeight(props, randomHeight);
      var p := PlaceStory(i, height);
      place := p;
      obj := AddStory(i, height, p);
      assert "index" in StoryOptions(totalColumns, i, height, p).attrs;
    }

    /** `updateCache(obj)`: the entry at the story's index records its
      * height only; no other entry changes. */
    method UpdateCache(obj: Item, index: int)
      requires AttrOf(obj, "index") == Some(index as real)
      modifies this`cache
      ensures cache == Store(old(cache), index, HeightEntryOf(obj))
    {
      cache := cache[index := HeightEntryOf(obj)];
    }

    /** The spawning half of `step`: the story `target` is created from its
      * cache entry. */
    method SpawnStory(target: int, randomHeight: real) returns (obj: Item)
      requires Valid() && totalColumns > 0 && 300.0 <= randomHeight <= 500.0
      modifies sys
      ensures Valid()
      ensures sys.records == old(sys.records) + [obj]
      ensures StoryShows(obj, totalColumns, target, Lookup(cache, target), randomHeight)
    {
      ghost var place;
      obj, place := CreateStory(target, Lookup(cache, target), randomHeight);
    }

    /** The destroying half of `step`: the story is cached and destroyed. */
    method RecycleStory(story: Item, index: int)
      requires Valid() && AttrOf(story, "index") == Some(index as real)
      modifies sys, this`cache
      ensures Valid()
      ensures cache == Store(old(cache), index, HeightEntryOf(story))
      ensures old(FindById(sys.records, story.id)).Some? ==>
        sys.records == RemoveAt(old(sys.records), old(FindById(sys.records, story.id)).value)
      ensures old(FindById(sys.records, story.id)).None? ==> sys.records == old(sys.records)
    {
      UpdateCache(story, index);
      ghost var before := sys.records;
      sys.DestroyItem(story);
      if FindById(before, story.id).Some? {
        RemoveKeepsMeasured(before, "Frog", FindById(before, story.id).value);
      }
    }

    /** The spawns of a step: at most one story, one row below or one row
      * above, created from its cache entry. */
    method SpawnFor(plan: FrogPlan, index: int, randomHeight: real) returns (spawned: Option<Item>)
      requires Valid() && totalColumns > 0 && 300.0 <= randomHeight <= 500.0
      requires !(plan.spawnBelow && plan.spawnAbove)
      modifies sys
      ensures Valid()
      ensures spawned.Some? <==> plan.spawnBelow || plan.spawnAbove
      ensures sys.records == old(sys.records) + (if spawned.Some? then [spawned.value] else [])
      ensures spawned.Some? ==>
        StoryShows(spawned.value, totalColumns, SpawnTarget(plan, index, totalColumns),
                   Lookup(cache, SpawnTarget(plan, index, totalColumns)), randomHeight)
    {
      spawned := None;
      if plan.spawnBelow {
        var obj := SpawnStory(index + totalColumns, randomHeight);
        spawned := Some(obj);
      }
      if plan.spawnAbove {
        var obj := SpawnStory(index - totalColumns, randomHeight);
        spawned := Some(obj);
      }
    }

    /** `Frog.prototype.step` for the story `story` at `index`, with
      * `location.y` `y`, height `height` and opacity `opacity`, in a world
      * of height `worldHeight`; `randomHeight` is the height a spawned
      * story gets when none is cached. The opacity fades in; then each of
      * the four branches that `FrogDecide` lets fire acts in source order:
      * a spawn creates the story one row further from the cache, a destroy
      * caches this story's height and destroys it, from the registry that
      * already holds the spawned story. */
    method Step(story: Item, index: int, y: real, height: real, worldHeight: real, opacity: real, randomHeight: real)
      returns (plan: FrogPlan, newOpacity: real, spawned: Option<Item>)
      requires Valid() && totalColumns > 0 && 300.0 <= randomHeight <= 500.0
      requires AttrOf(story, "index") == Some(index as real) && AttrOf(story, "height") == Some(height)
      modifies sys, this`cache
      ensures Valid()
      ensures newOpacity == FadeIn(opacity)
      ensures plan == FrogDecide(FrogView(scrollDirection, index, totalColumns, y, height, worldHeight,
                                          old(LiveAt(sys.records, index + totalColumns)),
                                          old(LiveAt(sys.records, index - totalColumns))))
      ensures spawned.Some? <==> plan.spawnBelow || plan.spawnAbove
      ensures spawned.Some? ==>
        StoryShows(spawned.value, totalColumns, SpawnTarget(plan, index, totalColumns),
                   Lookup(old(cache), SpawnTarget(plan, index, totalColumns)), randomHeight)
      ensures var grown := old(sys.records) + (if spawned.Some? then [spawned.value] else []);
              && (!(plan.destroyAbove || plan.destroyBelow) ==> sys.records == grown)
              && ((plan.destroyAbove || plan.destroyBelow) && FindById(grown, story.id).Some? ==>
                    sys.records == RemoveAt(grown, FindById(grown, story.id).value))
      ensures cache == if plan.destroyAbove || plan.destroyBelow then Store(old(cache), index, HeightEntryOf(story))
                       else old(cache)
    {
      newOpacity := FadeIn(opacity);
      var afterLive := LiveAt(sys.records, index + totalColumns);
      var beforeLive := LiveAt(sys.records, index - totalColumns);
      var v := FrogView(scrollDirection, index, totalColumns, y, height, worldHeight, afterLive, beforeLive);
      plan := FrogDecide(v);
      FrogActsOncePerKind(v);
      spawned := SpawnFor(plan, index, randomHeight);
      if plan.destroyAbove || plan.destroyBelow {
        RecycleStory(story, index);
      }
    }

    /** `getLongestColumn()`: every column starts at the viewport height and
      * each live story adds its height plus one padding; the longest total
      * is returned, `undefined` when no story is live. */
    method GetLongestColumn() returns (r: Option<real>)
      requires Valid()
      ensures Measured(FilterByName(sys.records, "Frog"))
      ensures r.None? <==> FilterByName(sys.records, "Frog") == []
      ensures r.Some? ==>
        IsExtreme(Accumulate(FilterByName(sys.records, "Frog"), viewportHeight as real, OBJ_PADDING as real), r.value, true)
    {
      var objs := sys.GetAllItemsByName("Frog", None);
      ClassIsMeasured(sys.records, "Frog");
      r := Columns.GetLongestColumn(objs, viewportHeight as real, OBJ_PADDING as real);
    }
  }
}
