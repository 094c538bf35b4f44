// Columns of live tiles. A tile's column neighbour is the first live item
// with the index one row away, found with `getAllItemsByAttribute('index',
// j)[0]`. Column lengths: `getMinMaxColumn` of src/Driver.js and
// src/Frogger.js and `getLongestColumn` of src/Frog.js. Each live tile adds
// its height plus a fixed extra (padding, initial offset) to the total of
// its column; the shortest or longest total is returned.
module Columns {
  import opened Wrappers
  import opened Registry
  import opened Layout
  import opened Tiles

  /** Whether some live item has this `index`. */
  function LiveAt(records: seq<Item>, index: int): bool
  {
    FindByAttr(records, "index", Some(index as real)).Some?
  }

  /** The position of the first live item with this `index` (its `location.y`
    * and `height`), `None` when there is no such item. */
  function NeighborAt(records: seq<Item>, index: int): Option<Neighbor>
  {
    match FindByAttr(records, "index", Some(index as real))
    case None => None
    case Some(k) =>
      if "y" in records[k].attrs && "height" in records[k].attrs then
        Some(Neighbor(records[k].attrs["y"], records[k].attrs["height"]))
      else None
  }

  /** An item is live at `index` exactly when some live item carries that
    * index, and a neighbour is only ever found at a live index. */
  lemma LiveAtMeans(records: seq<Item>, index: int)
    ensures LiveAt(records, index) <==>
      exists k :: 0 <= k < |records| && AttrOf(records[k], "index") == Some(index as real)
    ensures NeighborAt(records, index).Some? ==> LiveAt(records, index)
  {
    var r := FindByAttr(records, "index", Some(index as real));
    if r.Some? {
      assert AttrOf(records[r.value], "index") == Some(index as real);
    }
  }

  /** `getAllItemsByAttribute('index', j)[0]` read as a neighbour: its
    * `location.y` and `height`. */
  method FirstNeighbor(sys: System, j: int) returns (neighbor: Option<Neighbor>)
    ensures neighbor == NeighborAt(sys.records, j)
  {
    var found := sys.GetAllItemsByAttribute("index", Some(j as real));
    FilterHeadIsFirstMatch(sys.records, "index", Some(j as real));
    neighbor := None;
    if found != [] && "y" in found[0].attrs && "height" in found[0].attrs {
      neighbor := Some(Neighbor(found[0].attrs["y"], found[0].attrs["height"]));
    }
  }


  /** Every tile carries a height (the registry always sets one). */
  predicate Measured(objs: seq<Item>)
  {
    forall k :: 0 <= k < |objs| ==> "height" in objs[k].attrs
  }

  /** Every live item of class `name` carries a height. */
  ghost predicate ClassMeasured(records: seq<Item>, name: string)
  {
    forall k :: 0 <= k < |records| && records[k].name == name ==> "height" in records[k].attrs
  }

  /** The live items of a measured class are measured, as the column
    * lengths need. */
  lemma ClassIsMeasured(records: seq<Item>, name: string)
    requires ClassMeasured(records, name)
    ensures Measured(FilterByName(records, name))
  {
    var r := FilterByName(records, name);
    forall k | 0 <= k < |r|
      ensures "height" in r[k].attrs
    {
      FilterByNameMembers(records, name, r[k]);
      var j :| 0 <= j < |records| && records[j] == r[k];
    }
  }

  /** Removing a record keeps a class measured. */
  lemma RemoveKeepsMeasured(records: seq<Item>, name: string, k: nat)
    requires ClassMeasured(records, name) && k < |records|
    ensures ClassMeasured(RemoveAt(records, k), name)
  {
    var r := RemoveAt(records, k);
    forall j | 0 <= j < |r| && r[j].name == name
      ensures "height" in r[j].attrs
    {
      if j < k {
        assert r[j] == records[j];
      } else {
        assert r[j] == records[j + 1];
      }
    }
  }

  /** Appending a measured item keeps a class measured. */
  lemma AppendKeepsMeasured(records: seq<Item>, name: string, x: Item)
    requires ClassMeasured(records, name) && "height" in x.attrs
    ensures ClassMeasured(records + [x], name)
  {
  }

  /** The column key of tile `k`: its `myCol`, or `undefined` for a tile
    * that has none, all such tiles sharing the one key. */
  function Col(objs: seq<Item>, k: int): Option<real>
    requires 0 <= k < |objs|
  {
    AttrOf(objs[k], "myCol")
  }

  /** One iteration of the accumulation loop: a column that is absent or
    * whose total is 0 (falsy) restarts at `start`, then the tile's
    * `height + extra` is added. */
  function AddTile(m: map<Option<real>, real>, c: Option<real>, height: real, start: real, extra: real)
    : (r: map<Option<real>, real>)
    ensures r.Keys == m.Keys + {c}
    ensures forall d :: d in m && d != c ==> r[d] == m[d]
  {
    var base := if c in m && m[c] != 0.0 then m[c] else start;
    m[c := base + height + extra]
  }

  /** `columns.lookup` after the accumulation loop over all tiles. */
  function Accumulate(objs: seq<Item>, start: real, extra: real): map<Option<real>, real>
    requires Measured(objs)
  {
    if objs == [] then map[]
    else
      var n := |objs| - 1;
      AddTile(Accumulate(objs[..n], start, extra), AttrOf(objs[n], "myCol"), objs[n].attrs["height"], start, extra)
  }

  /** The column keys in the order they were first set. The `for ... in`
    * loop over `columns.lookup` lists integer-like keys in ascending order
    * instead; the list of totals is sorted before it is read, so the order
    * does not reach the result. */
  function ColumnOrder(objs: seq<Item>): seq<Option<real>>
  {
    if objs == [] then []
    else
      var n := |objs| - 1;
      var o := ColumnOrder(objs[..n]);
      if AttrOf(objs[n], "myCol") in o then o else o + [AttrOf(objs[n], "myCol")]
  }

  /** A column has a total exactly when some tile lies in it, and the key
    * order lists exactly those columns. */
  lemma {:induction false} AccumulateKeys(objs: seq<Item>, start: real, extra: real, c: Option<real>)
    requires Measured(objs)
    ensures c in Accumulate(objs, start, extra) <==> exists k :: 0 <= k < |objs| && Col(objs, k) == c
    ensures c in ColumnOrder(objs) <==> c in Accumulate(objs, start, extra)
  {
    if objs != [] {
      var n := |objs| - 1;
      AccumulateKeys(objs[..n], start, extra, c);
      assert forall k :: 0 <= k < n ==> Col(objs[..n], k) == Col(objs, k);
      assert Col(objs, n) == AttrOf(objs[n], "myCol");
    }
  }

  /** The plain sum of `height + extra` over the tiles of column `c`. */
  function ColumnSum(objs: seq<Item>, c: Option<real>, extra: real): real
    requires Measured(objs)
  {
    if objs == [] then 0.0
    else
      var n := |objs| - 1;
      ColumnSum(objs[..n], c, extra)
        + (if AttrOf(objs[n], "myCol") == c then objs[n].attrs["height"] + extra else 0.0)
  }

  /** When the start value is not negative and every tile adds a positive
    * amount, no column total is ever 0 after its first tile, so the
    * restart never fires again: each column's total is the start value
    * plus the sum over its tiles. */
  lemma {:induction false} AccumulateIsSum(objs: seq<Item>, start: real, extra: real, c: Option<real>)
    requires Measured(objs)
    requires start >= 0.0
    requires forall k :: 0 <= k < |objs| ==> objs[k].attrs["height"] + extra > 0.0
    ensures c in Accumulate(objs, start, extra) ==>
      Accumulate(objs, start, extra)[c] == start + ColumnSum(objs, c, extra)
    ensures c in Accumulate(objs, start, extra) ==> Accumulate(objs, start, extra)[c] > 0.0
  {
    if objs != [] {
      var n := |objs| - 1;
      assert forall k :: 0 <= k < n ==> objs[..n][k] == objs[k];
      AccumulateIsSum(objs[..n], start, extra, c);
      var m := Accumulate(objs[..n], start, extra);
      if AttrOf(objs[n], "myCol") == c && c !in m {
        AccumulateKeys(objs[..n], start, extra, c);
        ColumnSumAbsent(objs[..n], c, extra);
        assert Accumulate(objs, start, extra)[c] == start + objs[n].attrs["height"] + extra;
      } else if AttrOf(objs[n], "myCol") == c {
        assert Accumulate(objs, start, extra)[c] == m[c] + objs[n].attrs["height"] + extra;
      } else if c in m {
        assert Accumulate(objs, start, extra)[c] == m[c];
      }
    }
  }

  /** A column with no tiles sums to 0. */
  lemma {:induction false} ColumnSumAbsent(objs: seq<Item>, c: Option<real>, extra: real)
    requires Measured(objs)
    requires forall k :: 0 <= k < |objs| ==> Col(objs, k) != c
    ensures ColumnSum(objs, c, extra) == 0.0
  {
    if objs != [] {
      var n := |objs| - 1;
      assert forall k :: 0 <= k < n ==> Col(objs[..n], k) == Col(objs, k);
      ColumnSumAbsent(objs[..n], c, extra);
      assert Col(objs, n) != c;
    }
  }

  /** When no tile carries a column (the riders of release/Ramble.js carry
    * none), every tile lands in the one `undefined` bucket: that bucket is
    * the only column, its total is the start value plus the sum over all
    * tiles, and it is both the shortest and the longest column. */
  lemma OneBucketWithoutColumns(objs: seq<Item>, start: real, extra: real, tallest: bool)
    requires Measured(objs) && objs != []
    requires forall k :: 0 <= k < |objs| ==> "myCol" !in objs[k].attrs
    requires start >= 0.0
    requires forall k :: 0 <= k < |objs| ==> objs[k].attrs["height"] + extra > 0.0
    ensures Accumulate(objs, start, extra).Keys == {None}
    ensures IsExtreme(Accumulate(objs, start, extra), start + ColumnSum(objs, None, extra), tallest)
  {
    var m := Accumulate(objs, start, extra);
    forall c ensures c in m <==> c == None {
      AccumulateKeys(objs, start, extra, c);
      assert Col(objs, 0) == None;
    }
    AccumulateIsSum(objs, start, extra, None);
    assert m[None] == start + ColumnSum(objs, None, extra);
  }

  /** The accumulation loop over the tiles: `columns.lookup` and the order
    * in which its keys were first set. */
  method AccumulateColumns(objs: seq<Item>, start: real, extra: real) returns (m: map<Option<real>, real>, order: seq<Option<real>>)
    requires Measured(objs)
    ensures m == Accumulate(objs, start, extra)
    ensures order == ColumnOrder(objs)
  {
    m := map[];
    order := [];
    var i := 0;
    while i < |objs|
      invariant 0 <= i <= |objs|
      invariant m == Accumulate(objs[..i], start, extra)
      invariant order == ColumnOrder(objs[..i])
    {
      assert objs[..i + 1][..i] == objs[..i];
      var c := AttrOf(objs[i], "myCol");
      if c !in m || m[c] == 0.0 {
        m := m[c := start];
      }
      m := m[c := m[c] + objs[i].attrs["height"] + extra];
      if c !in order {
        order := order + [c];
      }
      i := i + 1;
    }
    assert objs[..i] == objs;
  }

  /** The column totals listed in key order. */
  method ColumnTotals(objs: seq<Item>, start: real, extra: real) returns (list: seq<real>)
    requires Measured(objs)
    ensures forall k :: 0 <= k < |list| ==> IsTotal(Accumulate(objs, start, extra), list[k])
    ensures forall c :: c in Accumulate(objs, start, extra) ==> Accumulate(objs, start, extra)[c] in list
    ensures |list| == 0 <==> objs == []
  {
    var m, order := AccumulateColumns(objs, start, extra);
    forall c ensures c in order <==> c in m {
      AccumulateKeys(objs, start, extra, c);
    }
    list := [];
    var j := 0;
    while j < |order|
      invariant 0 <= j <= |order|
      invariant |list| == j
      invariant forall k :: 0 <= k < j ==> list[k] == m[order[k]]
    {
      list := list + [m[order[j]]];
      j := j + 1;
    }
    TotalsListed(m, order, list);
    if objs != [] {
      AccumulateKeys(objs, start, extra, Col(objs, 0));
    }
  }

  /** `v` is the total of some column. */
  ghost predicate IsTotal(m: map<Option<real>, real>, v: real)
  {
    exists c :: c in m && m[c] == v
  }

  lemma TotalsListed(m: map<Option<real>, real>, order: seq<Option<real>>, list: seq<real>)
    requires forall c :: c in order <==> c in m
    requires |list| == |order|
    requires forall k :: 0 <= k < |order| ==> order[k] in m && list[k] == m[order[k]]
    ensures forall k :: 0 <= k < |list| ==> IsTotal(m, list[k])
    ensures forall c :: c in m ==> m[c] in list
  {
    forall c | c in m ensures m[c] in list {
      var k :| 0 <= k < |order| && order[k] == c;
      assert list[k] == m[c];
    }
    forall k | 0 <= k < |list| ensures IsTotal(m, list[k]) {
      var c := order[k];
      assert c in m && m[c] == list[k];
      assert exists d :: d in m && m[d] == list[k];
    }
  }

  /** `list.sort(...)` ascending (or, for the tallest, descending) followed
    * by `list[0]`: the least (greatest) element, `undefined` for an empty
    * list. */
  method Extreme(list: seq<real>, tallest: bool) returns (r: Option<real>)
    ensures r.None? <==> list == []
    ensures r.Some? ==> r.value in list
    ensures r.Some? ==> forall k :: 0 <= k < |list| ==> if tallest then list[k] <= r.value else r.value <= list[k]
  {
    if list == [] {
      return None;
    }
    var best := list[0];
    var i := 1;
    while i < |list|
      invariant 1 <= i <= |list|
      invariant best in list[..i]
      invariant forall k :: 0 <= k < i ==> if tallest then list[k] <= best else best <= list[k]
    {
      if (tallest && list[i] > best) || (!tallest && list[i] < best) {
        best := list[i];
      }
      i := i + 1;
    }
    assert list[..i] == list;
    r := Some(best);
  }

  /** `r` is the least (or, for the tallest, the greatest) column total. */
  ghost predicate IsExtreme(m: map<Option<real>, real>, r: real, tallest: bool)
  {
    (exists k :: k in m && m[k] == r) &&
    forall k :: k in m ==> if tallest then m[k] <= r else r <= m[k]
  }

  lemma ExtremeOfTotals(m: map<Option<real>, real>, list: seq<real>, r: real, tallest: bool)
    requires forall k :: 0 <= k < |list| ==> IsTotal(m, list[k])
    requires forall c :: c in m ==> m[c] in list
    requires r in list
    requires forall k :: 0 <= k < |list| ==> if tallest then list[k] <= r else r <= list[k]
    ensures IsExtreme(m, r, tallest)
  {
    forall c | c in m ensures if tallest then m[c] <= r else r <= m[c] {
      var k :| 0 <= k < |list| && list[k] == m[c];
    }
  }

  /** `getMinMaxColumn(opt_tallest)` of src/Driver.js and src/Frogger.js:
    * every tile adds `height + padding + initialYOffset` to its column,
    * starting from 0. */
  method GetMinMaxColumn(objs: seq<Item>, padding: real, initialYOffset: real, tallest: bool) returns (r: Option<real>)
    requires Measured(objs)
    ensures r.None? <==> objs == []
    ensures r.Some? ==> IsExtreme(Accumulate(objs, 0.0, padding + initialYOffset), r.value, tallest)
  {
    var list := ColumnTotals(objs, 0.0, padding + initialYOffset);
    r := Extreme(list, tallest);
    if r.Some? {
      ExtremeOfTotals(Accumulate(objs, 0.0, padding + initialYOffset), list, r.value, tallest);
    }
  }

  /** `getLongestColumn` of src/Frog.js: every column starts at the
    * viewport height and every tile adds `height + padding`; the greatest
    * total is returned. */
  method GetLongestColumn(objs: seq<Item>, viewportHeight: real, padding: real) returns (r: Option<real>)
    requires Measured(objs)
    ensures r.None? <==> objs == []
    ensures r.Some? ==> IsExtreme(Accumulate(objs, viewportHeight, padding), r.value, true)
  {
    var list := ColumnTotals(objs, viewportHeight, padding);
    r := Extreme(list, true);
    if r.Some? {
      ExtremeOfTotals(Accumulate(objs, viewportHeight, padding), list, r.value, true);
    }
  }
}
