// The decision procedure of `Rider.prototype.step` (src/Rider.js and
// release/Ramble.js): given what a tile measured this frame and which of
// its column neighbours are live, decide whether to spawn the neighbour
// below or above, recycle this tile, or do nothing. The procedure is a
// chain of guarded branches, each guarded by the world's `adjusted` flag
// and each returning after it acts, so one step takes at most one action.
module RiderStep {

  /** The one action a step takes. A spawn names the index it creates and
    * whether it raised the `systemError` fault. */
  datatype Action =
    | SpawnBelow(target: int, fault: bool)
    | SpawnAbove(target: int, fault: bool)
    | RecycleAbove
    | RecycleBelow
    | Idle

  /** What a tile sees when it steps: the world's flag, the scroll direction
    * (-1 scrolling up, 1 scrolling down), its index, the number of columns,
    * its measured top and height, the viewport height, and whether a tile
    * is live at `index + columns` (after) and at `index - columns` (before). */
  datatype View = View(adjusted: bool, dir: int, index: int, columns: int,
                       top: real, height: real, viewportHeight: real,
                       afterLive: bool, beforeLive: bool)

  /** Actions that change the world's top padding and set `adjusted`. */
  predicate Adjusts(a: Action)
  {
    a.SpawnAbove? || a.RecycleAbove?
  }

  /** The four guarded branches of `step`, in source order. */
  function Decide(v: View): (a: Action)
    ensures v.adjusted ==> a == Idle
    ensures a.SpawnBelow? ==>
      && v.dir == -1 && v.top + v.height < v.viewportHeight && !v.afterLive
      && a.target == v.index + v.columns
      && (a.fault <==> v.top + v.height < 0.0)
    ensures a.SpawnAbove? ==>
      && v.dir == 1 && v.top > 0.0 && !v.beforeLive
      && a.target == v.index - v.columns && a.target >= 0
      && (a.fault <==> v.top > v.viewportHeight)
    ensures a.RecycleAbove? ==> v.dir == -1 && v.top + v.height < 0.0 && v.afterLive
    ensures a.RecycleBelow? ==> v.dir == 1 && v.top > v.viewportHeight && v.beforeLive
    // and each branch's guards force its action; no guard, no action
    ensures !v.adjusted && v.dir == -1 && v.top + v.height < v.viewportHeight && !v.afterLive ==>
      a == SpawnBelow(v.index + v.columns, v.top + v.height < 0.0)
    ensures !v.adjusted && v.dir == 1 && v.top > 0.0 && !v.beforeLive && v.index >= v.columns ==>
      a == SpawnAbove(v.index - v.columns, v.top > v.viewportHeight)
    ensures !v.adjusted && v.dir == -1 && v.top + v.height < 0.0 && v.afterLive ==> a == RecycleAbove
    ensures !v.adjusted && v.dir == 1 && v.top > v.viewportHeight && v.beforeLive ==> a == RecycleBelow
    ensures a == Idle <==>
      v.adjusted ||
      !((v.dir == -1 && v.top + v.height < v.viewportHeight && !v.afterLive) ||
        (v.dir == 1 && v.top > 0.0 && !v.beforeLive && v.index >= v.columns) ||
        (v.dir == -1 && v.top + v.height < 0.0 && v.afterLive) ||
        (v.dir == 1 && v.top > v.viewportHeight && v.beforeLive))
  {
    if !v.adjusted && v.dir == -1 && v.top + v.height < v.viewportHeight && !v.afterLive then
      SpawnBelow(v.index + v.columns, v.top + v.height < 0.0)
    else if !v.adjusted && v.dir == 1 && v.top > 0.0 && !v.beforeLive && v.index >= v.columns then
      SpawnAbove(v.index - v.columns, v.top > v.viewportHeight)
    else if !v.adjusted && v.dir == -1 && v.top + v.height < 0.0 && v.afterLive then
      RecycleAbove
    else if !v.adjusted && v.dir == 1 && v.top > v.viewportHeight && v.beforeLive then
      RecycleBelow
    else
      Idle
  }

  /** Scrolling up, a tile whose bottom edge has left the top of the
    * viewport is always dealt with: it is recycled when the tile below it
    * is live, and otherwise the tile below is spawned with the fault
    * raised (the list scrolled faster than tiles could be created). */
  lemma TileAboveViewport(v: View)
    requires !v.adjusted && v.dir == -1 && v.top + v.height < 0.0 && v.viewportHeight >= 0.0
    ensures v.afterLive ==> Decide(v) == RecycleAbove
    ensures !v.afterLive ==> Decide(v) == SpawnBelow(v.index + v.columns, true)
  {
  }

  /** Scrolling down, a tile whose top edge is below the viewport is
    * recycled when the tile above it is live; otherwise, unless it is in
    * the first row, the tile above is spawned with the fault raised. */
  lemma TileBelowViewport(v: View)
    requires !v.adjusted && v.dir == 1 && v.top > v.viewportHeight && v.viewportHeight >= 0.0
    ensures v.beforeLive ==> Decide(v) == RecycleBelow
    ensures !v.beforeLive && v.index >= v.columns ==> Decide(v) == SpawnAbove(v.index - v.columns, true)
    ensures !v.beforeLive && v.index < v.columns ==> Decide(v) == Idle
  {
  }

  /** Spawned indices stay in the non-negative range when the tile's own
    * index is non-negative, so `index % columns` never sees a negative
    * dividend. */
  lemma SpawnTargetsNonNegative(v: View)
    requires v.index >= 0 && v.columns > 0
    ensures Decide(v).SpawnBelow? || Decide(v).SpawnAbove? ==> Decide(v).target >= 0
  {
  }

  /** A tile is recycled only when its inward neighbour is live, so a
    * column is never emptied by recycling. */
  lemma RecycleNeedsNeighbour(v: View)
    ensures Decide(v).RecycleAbove? ==> v.afterLive
    ensures Decide(v).RecycleBelow? ==> v.beforeLive
    ensures !v.afterLive && !v.beforeLive ==> !Decide(v).RecycleAbove? && !Decide(v).RecycleBelow?
  {
  }

  /** The direction release/Ramble.js derives from the world's vertical
    * velocity: -1 when the speed is below 0.1 or the velocity is not
    * positive, otherwise 1. */
  function VelocityDirection(vy: real): (d: int)
    ensures d == -1 || d == 1
    ensures d == 1 <==> vy >= 0.1
  {
    var speed := if vy < 0.0 then -vy else vy;
    if speed < 0.1 then -1
    else if vy <= 0.0 then -1
    else 1
  }

  // ---------------------------------------------------------------------
  // One frame of a world: its tiles step in turn, sharing `adjusted`
  // ---------------------------------------------------------------------

  /** The actions of the tiles of one world stepping in turn within a
    * frame: each sees the `adjusted` flag left by the steps before it. */
  function Frame(adjusted: bool, views: seq<View>): (r: seq<Action>)
    ensures |r| == |views|
    decreases |views|
  {
    if views == [] then []
    else
      var a := Decide(views[0].(adjusted := adjusted));
      [a] + Frame(adjusted || Adjusts(a), views[1..])
  }

  /** The number of adjusting actions in a sequence. */
  function CountAdjusts(s: seq<Action>): nat
  {
    if s == [] then 0 else (if Adjusts(s[0]) then 1 else 0) + CountAdjusts(s[1..])
  }

  /** Once the world is adjusted, every later step of the frame is idle. */
  lemma {:induction false} AdjustedFrameIsIdle(views: seq<View>)
    ensures forall k :: 0 <= k < |views| ==> Frame(true, views)[k] == Idle
  {
    if views != [] {
      AdjustedFrameIsIdle(views[1..]);
      forall k | 1 <= k < |views|
        ensures Frame(true, views)[k] == Idle
      {
        assert Frame(true, views)[k] == Frame(true, views[1..])[k - 1];
      }
    }
  }

  /** A world's top padding is adjusted at most once per frame, and not at
    * all when it was already adjusted. */
  lemma {:induction false} AtMostOneAdjustment(adjusted: bool, views: seq<View>)
    ensures CountAdjusts(Frame(adjusted, views)) <= (if adjusted then 0 else 1)
    decreases |views|
  {
    if views != [] {
      var a := Decide(views[0].(adjusted := adjusted));
      assert Frame(adjusted, views)[1..] == Frame(adjusted || Adjusts(a), views[1..]);
      AtMostOneAdjustment(adjusted || Adjusts(a), views[1..]);
    }
  }
}
