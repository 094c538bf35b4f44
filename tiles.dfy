// What the drivers store about a tile when it is recycled, and the options
// they build when a tile is (re)created: the recycle cache of
// src/Driver.js, src/Frogger.js, src/Frog.js and release/Ramble.js.
module Tiles {
  import opened Wrappers
  import opened Registry

  /** A JavaScript number as far as the engine needs it: a value or NaN
    * (what arithmetic on `undefined` produces). */
  datatype JsNum = Num(v: real) | NaN

  /** `a + b` where `b` may be `undefined`. */
  function AddNum(a: JsNum, b: Option<real>): (r: JsNum)
    ensures r.Num? <==> a.Num? && b.Some?
    ensures r.Num? ==> r.v == a.v + b.value
  {
    if a.Num? && b.Some? then Num(a.v + b.value) else NaN
  }

  /** `a - b` where `b` may be `undefined`. */
  function SubNum(a: JsNum, b: Option<real>): (r: JsNum)
    ensures r.Num? <==> a.Num? && b.Some?
    ensures r.Num? ==> r.v == a.v - b.value
  {
    if a.Num? && b.Some? then Num(a.v - b.value) else NaN
  }

  /** JavaScript's `x || fallback` for a number that may be undefined:
    * `undefined` and `0` both fall back. */
  function OrElse(x: Option<real>, fallback: real): (r: real)
    ensures x.Some? && x.value != 0.0 ==> r == x.value
    ensures x.None? || x.value == 0.0 ==> r == fallback
  {
    if x.Some? && x.value != 0.0 then x.value else fallback
  }

  /** A numeric property of an item, `undefined` when absent. */
  function AttrOf(x: Item, key: string): Option<real>
  {
    if key in x.attrs then Some(x.attrs[key]) else None
  }

  /** A node-valued property of an item, `undefined` when absent. */
  function NodeOf(x: Item, key: string): Option<nat>
  {
    if key in x.nodes then Some(x.nodes[key]) else None
  }

  // ---------------------------------------------------------------------
  // Cache entries, one schema per driver
  // ---------------------------------------------------------------------

  /** src/Driver.js and src/Frogger.js: `{height, html}`. */
  datatype HtmlEntry = HtmlEntry(height: Option<real>, html: Option<nat>)

  /** src/Frog.js: `{height}`. */
  datatype HeightEntry = HeightEntry(height: Option<real>)

  /** release/Ramble.js: `{height, firstChildHeight, contents, scrollDirection}`. */
  datatype RiderEntry = RiderEntry(height: Option<real>, firstChildHeight: Option<real>,
                                   contents: Option<nat>, scrollDirection: Option<real>)

  function HtmlEntryOf(x: Item): HtmlEntry
  {
    HtmlEntry(AttrOf(x, "height"), NodeOf(x, "html"))
  }

  function HeightEntryOf(x: Item): HeightEntry
  {
    HeightEntry(AttrOf(x, "height"))
  }

  function RiderEntryOf(x: Item): RiderEntry
  {
    RiderEntry(AttrOf(x, "height"), AttrOf(x, "firstChildHeight"), NodeOf(x, "contents"),
               AttrOf(x, "scrollDirection"))
  }

  /** `cache[index] = entry`: only the entry at `index` changes. */
  function Store<E>(cache: map<int, E>, index: int, entry: E): (r: map<int, E>)
    ensures r.Keys == cache.Keys + {index}
    ensures r[index] == entry
    ensures forall k :: k in cache && k != index ==> r[k] == cache[k]
  {
    cache[index := entry]
  }

  /** `cache[index]`, `undefined` when nothing was stored. */
  function Lookup<E>(cache: map<int, E>, index: int): (r: Option<E>)
    ensures r.Some? <==> index in cache
    ensures r.Some? ==> r.value == cache[index]
  {
    if index in cache then Some(cache[index]) else None
  }

  /** Storing then reading back the same index returns what was stored, and
    * reading any other index is unaffected by the store. */
  lemma StoreThenLookup<E>(cache: map<int, E>, index: int, entry: E, j: int)
    ensures Lookup(Store(cache, index, entry), index) == Some(entry)
    ensures j != index ==> Lookup(Store(cache, index, entry), j) == Lookup(cache, j)
  {
  }

  // ---------------------------------------------------------------------
  // What a recreated tile takes from the cache
  // ---------------------------------------------------------------------

  /** `options.contents || newNode` (src/Driver.js, release/Ramble.js) or
    * `options.html || newNode` (src/Frogger.js): the cached node if there is
    * one, otherwise the freshly built one. */
  function ReuseNode(cached: Option<nat>, newNode: nat): (n: nat)
    ensures cached.Some? ==> n == cached.value
    ensures cached.None? ==> n == newNode
  {
    if cached.Some? then cached.value else newNode
  }

  /** The `paddingTop` change when a tile is spawned above: the cached
    * entry's `firstChildHeight + padding` is subtracted when an entry exists. */
  function PaddingAfterSpawnAbove(paddingTop: JsNum, props: Option<RiderEntry>, padding: real): (r: JsNum)
    ensures props.None? ==> r == paddingTop
    ensures props.Some? && props.value.firstChildHeight.Some? && paddingTop.Num? ==>
      r == Num(paddingTop.v - (props.value.firstChildHeight.value + padding))
  {
    if props.Some? then
      SubNum(paddingTop, if props.value.firstChildHeight.Some? then Some(props.value.firstChildHeight.value + padding) else None)
    else paddingTop
  }

  /** The `paddingTop` change when a tile is recycled above:
    * `firstChildHeight + padding` is added. */
  function PaddingAfterRecycleAbove(paddingTop: JsNum, firstChildHeight: real, padding: real): (r: JsNum)
    ensures paddingTop.Num? ==> r == Num(paddingTop.v + firstChildHeight + padding)
    ensures paddingTop.NaN? ==> r.NaN?
  {
    AddNum(paddingTop, Some(firstChildHeight + padding))
  }

  /** With the cache schema of release/Ramble.js, recycling a tile above the
    * viewport and later spawning the same index above again restores the
    * column's top padding exactly, and the recreated tile gets back the
    * node it held. */
  lemma {:induction false} RecycleThenSpawnRestores(cache: map<int, RiderEntry>, x: Item, index: int,
                                                   firstChildHeight: real, padding: real, p: real, newNode: nat)
    requires AttrOf(x, "firstChildHeight") == Some(firstChildHeight)
    ensures var c := Store(cache, index, RiderEntryOf(x));
            PaddingAfterSpawnAbove(PaddingAfterRecycleAbove(Num(p), firstChildHeight, padding),
                                   Lookup(c, index), padding) == Num(p)
    ensures var c := Store(cache, index, RiderEntryOf(x));
            NodeOf(x, "contents").Some? ==>
            ReuseNode(Lookup(c, index).value.contents, newNode) == NodeOf(x, "contents").value
  {
    var c := Store(cache, index, RiderEntryOf(x));
    StoreThenLookup(cache, index, RiderEntryOf(x), index);
    assert Lookup(c, index) == Some(RiderEntryOf(x));
    assert RiderEntryOf(x).firstChildHeight == Some(firstChildHeight);
  }

  /** src/Rider.js reads `props.firstChildHeight` from an entry that
    * src/Driver.js stored as `{height, html}`, which has no such field: the
    * sum `undefined + padding` is NaN, and so is the new `paddingTop`. */
  function DriverPaddingAfterSpawnAbove(paddingTop: JsNum, props: Option<HtmlEntry>, padding: real): (r: JsNum)
    ensures props.None? ==> r == paddingTop
    ensures props.Some? ==> r.NaN?
  {
    if props.Some? then SubNum(paddingTop, None) else paddingTop
  }

  /** With the cache schema of src/Driver.js, recycling a tile above and
    * spawning it above again leaves the column's top padding NaN. */
  lemma {:induction false} DriverCacheLosesPadding(cache: map<int, HtmlEntry>, x: Item, index: int,
                                                  firstChildHeight: real, padding: real, p: real)
    ensures var c := Store(cache, index, HtmlEntryOf(x));
            DriverPaddingAfterSpawnAbove(PaddingAfterRecycleAbove(Num(p), firstChildHeight, padding),
                                         Lookup(c, index), padding) == NaN
  {
    StoreThenLookup(cache, index, HtmlEntryOf(x), index);
  }
}
