// The entity registry of public/scripts/SimpleSim.js: a live list of
// records, a per-world object pool of destroyed records, and a counter
// that hands out ids. Objects move between the live list and the pool;
// they are never copied.
module Registry {
  import opened Wrappers

  /** A simulated item: its id, its class name, its numeric properties
    * (index, height, location "x"/"y", ...) and its properties that hold a
    * DOM node ("contents", "html"), each node named by a handle. */
  datatype Item = Item(id: nat, name: string, attrs: map<string, real>, nodes: map<string, nat>)

  /** The options object passed to `add`: an optional name and properties. */
  datatype Options = Options(name: Option<string>, attrs: map<string, real>, nodes: map<string, nat>)

  /** One scheduled call of the frame loop. */
  datatype Event = Step(id: nat) | Draw(id: nat)

  /** What one `step` call does to the registry in this engine: it may add
    * one item of a class with options (a spawned neighbour) and may then
    * destroy its own record. */
  datatype StepEffect = StepEffect(spawn: Option<(string, Options)>, destroySelf: bool)

  const DEFAULT_SIZE: real := 20.0

  // ---------------------------------------------------------------------
  // Specification functions on sequences of items
  // ---------------------------------------------------------------------

  /** The multiset of ids in a sequence of items. */
  function IdBag(s: seq<Item>): multiset<nat>
  {
    if s == [] then multiset{} else multiset{s[0].id} + IdBag(s[1..])
  }

  lemma {:induction false} IdBagAppend(a: seq<Item>, b: seq<Item>)
    ensures IdBag(a + b) == IdBag(a) + IdBag(b)
  {
    if a == [] {
      assert a + b == b;
    } else {
      assert (a + b)[1..] == a[1..] + b;
      IdBagAppend(a[1..], b);
    }
  }

  /** No id occurs twice. */
  ghost predicate UniqueIds(b: multiset<nat>)
  {
    forall id :: b[id] <= 1
  }

  function RemoveAt<T>(s: seq<T>, k: nat): (r: seq<T>)
    requires k < |s|
    ensures |r| == |s| - 1
    ensures forall j :: 0 <= j < k ==> r[j] == s[j]
    ensures forall j :: k <= j < |r| ==> r[j] == s[j + 1]
  {
    s[..k] + s[k + 1..]
  }

  /** Removing a later element keeps the head. */
  lemma RemoveAtTail<T>(s: seq<T>, k: nat)
    requires 0 < k < |s|
    ensures RemoveAt(s, k) == [s[0]] + RemoveAt(s[1..], k - 1)
  {
    assert s[..k] == [s[0]] + s[1..][..k - 1];
  }

  /** Moving element k of `a` to the end of `b` keeps the ids of a and b together. */
  lemma {:induction false} MoveKeepsIds(a: seq<Item>, b: seq<Item>, k: nat)
    requires k < |a|
    ensures IdBag(RemoveAt(a, k)) + IdBag(b + [a[k]]) == IdBag(a) + IdBag(b)
  {
    assert a == a[..k] + ([a[k]] + a[k + 1..]);
    IdBagAppend(a[..k], [a[k]] + a[k + 1..]);
    IdBagAppend([a[k]], a[k + 1..]);
    IdBagAppend(a[..k], a[k + 1..]);
    IdBagAppend(b, [a[k]]);
    assert IdBag([a[k]]) == multiset{a[k].id} by {
      assert [a[k]][1..] == [];
    }
  }

  /** Position of the first item with the given id, as `destroyItem` searches. */
  function FindById(s: seq<Item>, id: nat): (r: Option<nat>)
    ensures r.Some? ==> r.value < |s| && s[r.value].id == id
    ensures r.Some? ==> forall j :: 0 <= j < r.value ==> s[j].id != id
    ensures r.None? <==> forall j :: 0 <= j < |s| ==> s[j].id != id
  {
    if s == [] then None
    else if s[0].id == id then Some(0)
    else match FindById(s[1..], id)
      case None => None
      case Some(k) => Some(k + 1)
  }

  /** Position of the first item with the given name, as `add` searches the pool. */
  function FindByName(s: seq<Item>, name: string): (r: Option<nat>)
    ensures r.Some? ==> r.value < |s| && s[r.value].name == name
    ensures r.Some? ==> forall j :: 0 <= j < r.value ==> s[j].name != name
    ensures r.None? <==> forall j :: 0 <= j < |s| ==> s[j].name != name
  {
    if s == [] then None
    else if s[0].name == name then Some(0)
    else match FindByName(s[1..], name)
      case None => None
      case Some(k) => Some(k + 1)
  }

  /** The items of `s` whose name is `name`, in order. */
  function FilterByName(s: seq<Item>, name: string): (r: seq<Item>)
    ensures |r| <= |s|
    ensures forall k :: 0 <= k < |r| ==> r[k].name == name
  {
    if s == [] then []
    else if s[0].name == name then [s[0]] + FilterByName(s[1..], name)
      else FilterByName(s[1..], name)
  }

  /** The filter is empty exactly when the search finds nothing. */
  lemma {:induction false} FilterByNameEmpty(s: seq<Item>, name: string)
    ensures FilterByName(s, name) == [] <==> FindByName(s, name).None?
  {
    if s != [] && s[0].name != name {
      FilterByNameEmpty(s[1..], name);
    }
  }

  /** Exactly the items of `s` named `name` pass the filter. */
  lemma {:induction false} FilterByNameMembers(s: seq<Item>, name: string, x: Item)
    ensures x in FilterByName(s, name) <==> x in s && x.name == name
  {
    if s != [] {
      FilterByNameMembers(s[1..], name, x);
      assert x in s <==> x == s[0] || x in s[1..];
    }
  }

  /** Ids unique across the live list and the pool are unique in the live
    * list. */
  lemma UniqueLiveIds(records: seq<Item>, pool: seq<Item>)
    requires UniqueIds(IdBag(records) + IdBag(pool))
    ensures UniqueIds(IdBag(records))
  {
    forall id ensures IdBag(records)[id] <= 1 {
      assert (IdBag(records) + IdBag(pool))[id] >= IdBag(records)[id];
    }
  }

  /** Appending an item filters like filtering both parts. */
  lemma {:induction false} FilterByNameAppend(s: seq<Item>, x: Item, name: string)
    ensures FilterByName(s + [x], name) == FilterByName(s, name) + (if x.name == name then [x] else [])
  {
    if s != [] {
      assert (s + [x])[1..] == s[1..] + [x];
      FilterByNameAppend(s[1..], x, name);
    } else {
      assert [x][1..] == [];
    }
  }

  /** An item's id is in the bag of the sequence it occurs in. */
  lemma {:induction false} IdInBag(s: seq<Item>, x: Item)
    requires x in s
    ensures x.id in IdBag(s)
  {
    if s[0] != x {
      IdInBag(s[1..], x);
    }
  }

  /** When ids are unique, destroying the first item named `name` by its id
    * removes exactly that item from the items named `name`. */
  lemma {:induction false} DestroyFirstNamed(s: seq<Item>, name: string)
    requires FilterByName(s, name) != [] && UniqueIds(IdBag(s))
    ensures FindById(s, FilterByName(s, name)[0].id).Some?
    ensures FilterByName(RemoveAt(s, FindById(s, FilterByName(s, name)[0].id).value), name)
              == FilterByName(s, name)[1..]
  {
    var x := FilterByName(s, name)[0];
    if s[0].name == name {
      assert RemoveAt(s, 0) == s[1..];
    } else {
      var t := s[1..];
      assert IdBag(s) == multiset{s[0].id} + IdBag(t);
      assert UniqueIds(IdBag(t)) by {
        forall id ensures IdBag(t)[id] <= 1 {
          assert IdBag(t)[id] <= IdBag(s)[id];
        }
      }
      FilterByNameMembers(t, name, x);
      IdInBag(t, x);
      assert IdBag(s)[x.id] == (if s[0].id == x.id then 1 else 0) + IdBag(t)[x.id];
      DestroyFirstNamed(t, name);
      var k := FindById(t, x.id).value;
      assert FindById(s, x.id) == Some(k + 1);
      RemoveAtTail(s, k + 1);
      assert ([s[0]] + RemoveAt(t, k))[1..] == RemoveAt(t, k);
    }
  }

  /** Whether an item passes `getAllItemsByAttribute(attr, val)`: the
    * property is defined and, when a value is given, equal to it. */
  predicate MatchesAttr(x: Item, attr: string, val: Option<real>)
  {
    attr in x.attrs && (val.None? || x.attrs[attr] == val.value)
  }

  /** The items of `s` that pass `MatchesAttr`, in order. */
  function FilterByAttr(s: seq<Item>, attr: string, val: Option<real>): (r: seq<Item>)
    ensures |r| <= |s|
    ensures forall k :: 0 <= k < |r| ==> MatchesAttr(r[k], attr, val)
  {
    if s == [] then []
    else if MatchesAttr(s[0], attr, val) then [s[0]] + FilterByAttr(s[1..], attr, val)
      else FilterByAttr(s[1..], attr, val)
  }

  /** Appending an item filters like filtering both parts. */
  lemma {:induction false} FilterByAttrAppend(s: seq<Item>, x: Item, attr: string, val: Option<real>)
    ensures FilterByAttr(s + [x], attr, val) ==
      FilterByAttr(s, attr, val) + (if MatchesAttr(x, attr, val) then [x] else [])
  {
    if s != [] {
      assert (s + [x])[1..] == s[1..] + [x];
      FilterByAttrAppend(s[1..], x, attr, val);
    } else {
      assert [x][1..] == [];
    }
  }

  /** Exactly the items of `s` that match pass the filter. */
  lemma {:induction false} FilterByAttrMembers(s: seq<Item>, attr: string, val: Option<real>, x: Item)
    ensures x in FilterByAttr(s, attr, val) <==> x in s && MatchesAttr(x, attr, val)
  {
    if s != [] {
      FilterByAttrMembers(s[1..], attr, val, x);
      assert x in s <==> x == s[0] || x in s[1..];
    }
  }

  /** Position of the first item that passes `MatchesAttr`: the item
    * `getAllItemsByAttribute(attr, val)[0]` returns. */
  function FindByAttr(s: seq<Item>, attr: string, val: Option<real>): (r: Option<nat>)
    ensures r.Some? ==> r.value < |s| && MatchesAttr(s[r.value], attr, val)
    ensures r.Some? ==> forall j :: 0 <= j < r.value ==> !MatchesAttr(s[j], attr, val)
    ensures r.None? <==> forall j :: 0 <= j < |s| ==> !MatchesAttr(s[j], attr, val)
  {
    if s == [] then None
    else if MatchesAttr(s[0], attr, val) then Some(0)
    else match FindByAttr(s[1..], attr, val)
      case None => None
      case Some(k) => Some(k + 1)
  }

  /** The head of the filtered list is the first match. */
  lemma {:induction false} FilterHeadIsFirstMatch(s: seq<Item>, attr: string, val: Option<real>)
    ensures FilterByAttr(s, attr, val) == [] <==> FindByAttr(s, attr, val).None?
    ensures FindByAttr(s, attr, val).Some? ==>
      FilterByAttr(s, attr, val)[0] == s[FindByAttr(s, attr, val).value]
  {
    if s != [] && !MatchesAttr(s[0], attr, val) {
      FilterHeadIsFirstMatch(s[1..], attr, val);
    }
  }

  /** The name an item constructor gives: `options.name || 'Item'`. */
  function CtorName(opts: Options): (n: string)
    ensures opts.name.Some? && opts.name.value != "" ==> n == opts.name.value
    ensures n != ""
  {
    if opts.name.Some? && opts.name.value != "" then opts.name.value else "Item"
  }

  /** `options.width || 20`: a missing or zero option falls back to 20. */
  function SizeOption(attrs: map<string, real>, key: string): (r: real)
    ensures r != 0.0
    ensures key in attrs && attrs[key] != 0.0 ==> r == attrs[key]
  {
    if key in attrs && attrs[key] != 0.0 then attrs[key] else DEFAULT_SIZE
  }

  /** `Item.init(options)`: every option is copied onto the item, then width
    * and height get their defaults and mass is derived from them. The id is
    * never touched. */
  function Init(x: Item, opts: Options): (r: Item)
    ensures r.id == x.id
  {
    var w := SizeOption(opts.attrs, "width");
    var h := SizeOption(opts.attrs, "height");
    var merged := x.attrs + opts.attrs;
    Item(x.id, if opts.name.Some? then opts.name.value else x.name,
         merged["width" := w]["height" := h]["mass" := w * h * 0.025],
         x.nodes + opts.nodes)
  }

  /** What `init` leaves on the item: the given name, every option, every
    * earlier property the options do not override, the defaulted width
    * and height, the derived mass, and the node options over the earlier
    * nodes. */
  lemma InitMerges(x: Item, opts: Options)
    ensures Init(x, opts).name == (if opts.name.Some? then opts.name.value else x.name)
    ensures forall k :: k in opts.attrs && k !in {"width", "height", "mass"} ==> k in Init(x, opts).attrs && Init(x, opts).attrs[k] == opts.attrs[k]
    ensures forall k :: k in x.attrs && k !in opts.attrs && k !in {"width", "height", "mass"} ==> k in Init(x, opts).attrs && Init(x, opts).attrs[k] == x.attrs[k]
    ensures "width" in Init(x, opts).attrs && Init(x, opts).attrs["width"] == SizeOption(opts.attrs, "width")
    ensures "height" in Init(x, opts).attrs && Init(x, opts).attrs["height"] == SizeOption(opts.attrs, "height")
    ensures "mass" in Init(x, opts).attrs && Init(x, opts).attrs["mass"] == Init(x, opts).attrs["width"] * Init(x, opts).attrs["height"] * 0.025
    ensures Init(x, opts).nodes == x.nodes + opts.nodes
  {
  }

  /** `r` carries the options: their name when one is given, every option
    * except the derived width, height and mass, the width and height with
    * their defaults, and every node option. */
  ghost predicate Carries(r: Item, opts: Options)
  {
    && (opts.name.Some? ==> r.name == opts.name.value)
    && (forall k :: k in opts.attrs && k !in {"width", "height", "mass"} ==> k in r.attrs && r.attrs[k] == opts.attrs[k])
    && "width" in r.attrs && r.attrs["width"] == SizeOption(opts.attrs, "width")
    && "height" in r.attrs && r.attrs["height"] == SizeOption(opts.attrs, "height")
    && (forall k :: k in opts.nodes ==> k in r.nodes && r.nodes[k] == opts.nodes[k])
  }

  /** An initialised item carries its options, whatever it held before. */
  lemma InitCarries(x: Item, opts: Options)
    ensures Carries(Init(x, opts), opts)
  {
  }

  /** The frame loop's order: every step call, from the last record live
    * when the frame starts to the first (none while the world is paused),
    * then every draw call, from the last record live after the steps to the
    * first. */
  function Schedule(before: seq<Item>, after: seq<Item>, pauseStep: bool): (r: seq<Event>)
    ensures |r| == (if pauseStep then 0 else |before|) + |after|
  {
    (if pauseStep then [] else Backward(before, true)) + Backward(after, false)
  }

  function Backward(s: seq<Item>, step: bool): (r: seq<Event>)
    ensures |r| == |s|
    ensures forall k :: 0 <= k < |s| ==> r[k] == (if step then Step(s[|s| - 1 - k].id) else Draw(s[|s| - 1 - k].id))
  {
    if s == [] then []
    else [if step then Step(s[|s| - 1].id) else Draw(s[|s| - 1].id)] + Backward(s[..|s| - 1], step)
  }

  /** In a frame, all steps happen before any draw. */
  lemma StepsBeforeDraws(before: seq<Item>, after: seq<Item>, pauseStep: bool, i: nat, j: nat)
    requires i < j < |Schedule(before, after, pauseStep)|
    requires Schedule(before, after, pauseStep)[i].Draw?
    ensures Schedule(before, after, pauseStep)[j].Draw?
  {
  }

  /** Visiting one more record, further down the list, adds its call at the
    * end of the backward visit. */
  lemma BackwardExtend(s: seq<Item>, i: nat, step: bool)
    requires i < |s|
    ensures Backward(s[i..], step) == Backward(s[i + 1..], step) + [if step then Step(s[i].id) else Draw(s[i].id)]
  {
    var a, b := Backward(s[i..], step), Backward(s[i + 1..], step);
    assert |a| == |b| + 1;
    forall k | 0 <= k < |b| ensures a[k] == b[k] {
      assert s[i..][|s[i..]| - 1 - k] == s[i + 1..][|s[i + 1..]| - 1 - k];
    }
    assert s[i..][0] == s[i];
  }

  /** The id discipline of the registry: no live or pooled item shares its id
    * with another, and every id is one the counter has handed out. */
  ghost predicate ValidIds(records: seq<Item>, pool: seq<Item>, idCount: nat)
  {
    UniqueIds(IdBag(records) + IdBag(pool)) &&
    forall id :: id in IdBag(records) + IdBag(pool) ==> 0 < id <= idCount
  }

  /** Taking pooled item k back to the live list, re-initialised (same id),
    * keeps the id discipline. */
  lemma {:induction false} RecycleKeepsValid(records: seq<Item>, pool: seq<Item>, idCount: nat, k: nat, x: Item)
    requires ValidIds(records, pool, idCount) && k < |pool| && x.id == pool[k].id
    ensures ValidIds(records + [x], RemoveAt(pool, k), idCount)
    ensures IdBag(records + [x]) + IdBag(RemoveAt(pool, k)) == IdBag(records) + IdBag(pool)
  {
    MoveKeepsIds(pool, records, k);
    IdBagAppend(records, [x]);
    IdBagAppend(records, [pool[k]]);
    assert IdBag([x]) == IdBag([pool[k]]) by {
      assert [x][1..] == [] && [pool[k]][1..] == [];
      assert IdBag([x]) == multiset{x.id};
      assert IdBag([pool[k]]) == multiset{pool[k].id};
    }
    assert IdBag(records + [x]) == IdBag(records + [pool[k]]);
    assert IdBag(records) + IdBag(pool) == IdBag(pool) + IdBag(records);
    assert IdBag(records + [x]) + IdBag(RemoveAt(pool, k)) == IdBag(RemoveAt(pool, k)) + IdBag(records + [x]);
  }

  /** Appending a newly constructed item with the next id keeps the id
    * discipline. */
  lemma {:induction false} ConstructKeepsValid(records: seq<Item>, pool: seq<Item>, idCount: nat, x: Item)
    requires ValidIds(records, pool, idCount) && x.id == idCount + 1
    ensures ValidIds(records + [x], pool, idCount + 1)
  {
    var before := IdBag(records) + IdBag(pool);
    assert x.id !in before;
    assert IdBag([x]) == multiset{x.id} by { assert [x][1..] == []; }
    IdBagAppend(records, [x]);
    assert IdBag(records + [x]) + IdBag(pool) == before + multiset{x.id};
    FreshIdKeepsUnique(before, x.id);
  }

  /** Moving live record k to the pool keeps the id discipline. */
  lemma {:induction false} DestroyKeepsValid(records: seq<Item>, pool: seq<Item>, idCount: nat, k: nat)
    requires ValidIds(records, pool, idCount) && k < |records|
    ensures ValidIds(RemoveAt(records, k), pool + [records[k]], idCount)
    ensures IdBag(RemoveAt(records, k)) + IdBag(pool + [records[k]]) == IdBag(records) + IdBag(pool)
  {
    MoveKeepsIds(records, pool, k);
  }

  /** Two records sharing an id count that id twice. */
  lemma {:induction false} SharedIdCountsTwice(s: seq<Item>, j: nat, i: nat)
    requires j < i < |s| && s[j].id == s[i].id
    ensures IdBag(s)[s[i].id] >= 2
  {
    var pre, post := s[..i], s[i..];
    assert s == pre + post;
    IdBagAppend(pre, post);
    assert pre[j] == s[j];
    IdInBag(pre, s[j]);
    assert post == [s[i]] + post[1..];
    assert IdBag(post)[s[i].id] >= 1;
  }

  /** With unique ids, the first record carrying record i's id is record i,
    * so `destroyItem` on a live record removes exactly that record. */
  lemma UniqueIdAt(records: seq<Item>, pool: seq<Item>, i: nat)
    requires UniqueIds(IdBag(records) + IdBag(pool)) && i < |records|
    ensures FindById(records, records[i].id) == Some(i)
  {
    UniqueLiveIds(records, pool);
    forall j | 0 <= j < i
      ensures records[j].id != records[i].id
    {
      if records[j].id == records[i].id {
        SharedIdCountsTwice(records, j, i);
        assert false;
      }
    }
    var r := FindById(records, records[i].id);
    assert r.Some? && r.value <= i;
  }

  /** Adding an id that is not yet present keeps ids unique. */
  lemma FreshIdKeepsUnique(b: multiset<nat>, id: nat)
    requires UniqueIds(b) && id !in b
    ensures UniqueIds(b + multiset{id})
  {
    forall i ensures (b + multiset{id})[i] <= 1 {
      if i == id { assert b[i] == 0; }
    }
  }

  // ---------------------------------------------------------------------
  // The System object
  // ---------------------------------------------------------------------

  class System {
    /** `_idCount`: the last id handed out. */
    var idCount: nat
    /** `_records.list` without the world itself. */
    var records: seq<Item>
    /** The world's `_pool` of destroyed items. */
    var pool: seq<Item>
    /** Class names that `exports` or `System.Classes` can construct. */
    var classes: set<string>

    /** Every live or pooled item has its own id, and every id was handed out. */
    ghost predicate Valid()
      reads this
    {
      ValidIds(records, pool, idCount)
    }

    constructor (classes: set<string>)
      ensures Valid()
      ensures idCount == 0 && records == [] && pool == [] && this.classes == classes
    {
      idCount := 0;
      records := [];
      pool := [];
      this.classes := classes;
    }

    /** `getNewId`: bumps the counter and returns it. */
    method GetNewId() returns (id: nat)
      modifies this`idCount
      ensures idCount == old(idCount) + 1
      ensures id == idCount
    {
      idCount := idCount + 1;
      id := idCount;
    }

    /** `add(klass, options)`: reuse the first pooled item named `klass` if
      * there is one, otherwise construct a new one; either way the item is
      * appended to the live list and initialised with the options. */
    method Add(klass: string, opts: Options) returns (r: Result<Item>)
      requires Valid()
      modifies this`idCount, this`records, this`pool
      ensures Valid()
      ensures old(FindByName(pool, klass)).Some? ==>
        var k := old(FindByName(pool, klass)).value;
        && pool == RemoveAt(old(pool), k)
        && records == old(records) + [Init(old(pool)[k], opts)]
        && idCount == old(idCount)
      ensures old(FindByName(pool, klass)).None? && klass in classes ==>
        && pool == old(pool)
        && idCount == old(idCount) + 1
        && records == old(records) + [Init(Item(idCount, CtorName(opts), map[], map[]), opts)]
      ensures old(FindByName(pool, klass)).None? && klass !in classes ==>
        && r.Err?
        && pool == old(pool) && records == old(records) && idCount == old(idCount)
      ensures r.Ok? <==> old(FindByName(pool, klass)).Some? || klass in classes
      ensures r.Ok? ==> records == old(records) + [r.value] && Carries(r.value, opts)
    {
      var matches := GetAllItemsByName(klass, Some(pool));
      FilterByNameEmpty(pool, klass);
      if |matches| > 0 {
        var k := FirstInPool(klass);
        r := Recycle(k.value, opts);
      } else {
        if klass in classes {
          r := Construct(opts);
        } else {
          r := Err(klass + " class does not exist.");
        }
      }
    }

    /** The loop of `add` that looks for the first pooled item named `klass`. */
    method FirstInPool(klass: string) returns (k: Option<nat>)
      ensures k == FindByName(pool, klass)
    {
      var i := 0;
      while i < |pool|
        invariant 0 <= i <= |pool|
        invariant forall j :: 0 <= j < i ==> pool[j].name != klass
      {
        if pool[i].name == klass {
          return Some(i);
        }
        i := i + 1;
      }
      return None;
    }

    /** Splice pooled item k out of the pool, append it to the live records
      * and initialise it. */
    method Recycle(k: nat, opts: Options) returns (r: Result<Item>)
      requires Valid() && k < |pool|
      modifies this`records, this`pool
      ensures Valid()
      ensures pool == RemoveAt(old(pool), k)
      ensures records == old(records) + [Init(old(pool)[k], opts)]
      ensures r == Ok(records[|records| - 1])
      ensures Carries(r.value, opts)
    {
      var x := Init(pool[k], opts);
      InitCarries(pool[k], opts);
      RecycleKeepsValid(records, pool, idCount, k, x);
      records := records + [x];
      pool := RemoveAt(pool, k);
      r := Ok(x);
    }

    /** Construct a new item with a fresh id, append it and initialise it. */
    method Construct(opts: Options) returns (r: Result<Item>)
      requires Valid()
      modifies this`records, this`idCount
      ensures Valid()
      ensures idCount == old(idCount) + 1
      ensures records == old(records) + [Init(Item(idCount, CtorName(opts), map[], map[]), opts)]
      ensures r == Ok(records[|records| - 1])
      ensures Carries(r.value, opts)
    {
      ghost var n := idCount;
      var id := GetNewId();
      var x := Init(Item(id, CtorName(opts), map[], map[]), opts);
      ConstructKeepsValid(records, pool, n, x);
      InitCarries(Item(id, CtorName(opts), map[], map[]), opts);
      records := records + [x];
      r := Ok(x);
    }

    /** `destroyItem(obj)`: move the first live record with obj's id to the
      * pool; when no record has that id nothing changes. */
    method DestroyItem(obj: Item)
      requires Valid()
      modifies this`records, this`pool
      ensures Valid()
      ensures old(FindById(records, obj.id)).Some? ==>
        var k := old(FindById(records, obj.id)).value;
        records == RemoveAt(old(records), k) && pool == old(pool) + [old(records)[k]]
      ensures old(FindById(records, obj.id)).None? ==> records == old(records) && pool == old(pool)
      ensures IdBag(records) + IdBag(pool) == old(IdBag(records) + IdBag(pool))
    {
      var i := 0;
      while i < |records|
        invariant 0 <= i <= |records|
        invariant forall j :: 0 <= j < i ==> records[j].id != obj.id
        invariant records == old(records) && pool == old(pool)
      {
        if records[i].id == obj.id {
          DestroyKeepsValid(records, pool, idCount, i);
          pool := pool + [records[i]];
          records := RemoveAt(records, i);
          return;
        }
        i := i + 1;
      }
    }

    /** `getAllItemsByName(name, opt_list)`: the items of the list (the live
      * records by default) named `name`, in list order. */
    method GetAllItemsByName(name: string, optList: Option<seq<Item>>) returns (arr: seq<Item>)
      ensures arr == FilterByName(optList.GetOr(records), name)
    {
      var list := optList.GetOr(records);
      arr := [];
      var i := 0;
      while i < |list|
        invariant 0 <= i <= |list|
        invariant arr == FilterByName(list[..i], name)
      {
        assert list[..i + 1] == list[..i] + [list[i]];
        FilterByNameAppend(list[..i], list[i], name);
        if list[i].name == name {
          arr := arr + [list[i]];
        }
        i := i + 1;
      }
      assert list[..i] == list;
    }

    /** `getAllItemsByAttribute(attr, opt_val)`: the live records on which
      * `attr` is defined and, if a value is given, equal to it, in order. */
    method GetAllItemsByAttribute(attr: string, optVal: Option<real>) returns (arr: seq<Item>)
      ensures arr == FilterByAttr(records, attr, optVal)
    {
      var list := records;
      arr := [];
      var i := 0;
      while i < |list|
        invariant 0 <= i <= |list|
        invariant arr == FilterByAttr(list[..i], attr, optVal)
      {
        assert list[..i + 1] == list[..i] + [list[i]];
        FilterByAttrAppend(list[..i], list[i], attr, optVal);
        if MatchesAttr(list[i], attr, optVal) {
          arr := arr + [list[i]];
        }
        i := i + 1;
      }
      assert list[..i] == list;
    }

    /** A step spawning an item: `add` only appends to the live list. */
    method SpawnDuringStep(klass: string, opts: Options)
      requires Valid()
      modifies this`idCount, this`records, this`pool
      ensures Valid()
      ensures |old(records)| <= |records| && records[..|old(records)|] == old(records)
    {
      var _ := Add(klass, opts);
      assert records[..|old(records)|] == old(records);
    }

    /** A step destroying its own record i: `destroyItem` removes exactly
      * that record, ids being unique. */
    method DestroyDuringStep(i: nat)
      requires Valid() && i < |records|
      modifies this`records, this`pool
      ensures Valid()
      ensures records == RemoveAt(old(records), i)
    {
      UniqueIdAt(records, pool, i);
      DestroyItem(records[i]);
    }

    /** What one record's `step` does to the registry: apply `e`, adding
      * the spawned item and then destroying record i itself. The records
      * before position i are untouched. */
    method ApplyEffect(i: nat, e: StepEffect)
      requires Valid() && i < |records|
      modifies this`idCount, this`records, this`pool
      ensures Valid()
      ensures i <= |records| && records[..i] == old(records)[..i]
    {
      if e.spawn.Some? {
        SpawnDuringStep(e.spawn.value.0, e.spawn.value.1);
      }
      assert records[..i + 1] == old(records)[..i + 1];
      if e.destroySelf {
        DestroyDuringStep(i);
      }
    }

    /** The step half of `_update`: step every record live at the start,
      * from the last to the first. Iterating backwards means a record
      * destroying itself or an item spawned at the end never shifts a
      * record not yet visited, so each is stepped exactly once. */
    method StepAll(effect: (seq<Item>, Item) -> StepEffect) returns (trace: seq<Event>)
      requires Valid()
      modifies this`idCount, this`records, this`pool
      ensures Valid()
      ensures trace == Backward(old(records), true)
    {
      ghost var start := records;
      trace := [];
      var i := |records| - 1;
      while i >= 0
        invariant -1 <= i < |start|
        invariant Valid()
        invariant i + 1 <= |records| && records[..i + 1] == start[..i + 1]
        invariant trace == Backward(start[i + 1..], true)
      {
        assert records[i] == start[i];
        BackwardExtend(start, i, true);
        trace := trace + [Step(records[i].id)];
        ApplyEffect(i, effect(records, records[i]));
        i := i - 1;
      }
      assert start[0..] == start;
    }

    /** The draw half of `_update`: draw every record, from the last to the
      * first. Drawing changes nothing in the registry. */
    method DrawAll() returns (trace: seq<Event>)
      ensures trace == Backward(records, false)
    {
      var live := records;
      trace := [];
      var i := |live| - 1;
      while i >= 0
        invariant -1 <= i < |live|
        invariant trace == Backward(live[i + 1..], false)
      {
        BackwardExtend(live, i, false);
        trace := trace + [Draw(live[i].id)];
        i := i - 1;
      }
      assert live[0..] == live;
    }

    /** `_update`: calls step on every record from the last to the first
      * (skipped while the world pauses stepping), then draw on every record
      * from the last to the first. A step may spawn an item and destroy its
      * own record, as `effect` says from the records it sees; an item
      * spawned during the frame is drawn but not stepped. Returns the calls
      * in order. */
    method Update(pauseStep: bool, effect: (seq<Item>, Item) -> StepEffect) returns (trace: seq<Event>)
      requires Valid()
      modifies this`idCount, this`records, this`pool
      ensures Valid()
      ensures pauseStep ==> records == old(records) && pool == old(pool) && idCount == old(idCount)
      ensures trace == Schedule(old(records), records, pauseStep)
    {
      var steps := [];
      if !pauseStep {
        steps := StepAll(effect);
      }
      var draws := DrawAll();
      trace := steps + draws;
    }
  }

  // ---------------------------------------------------------------------
  // Vector arithmetic and the world-edge bounce
  // ---------------------------------------------------------------------

  /** A 2-D vector whose arithmetic methods update it in place. */
  class Vector {
    var x: real
    var y: real

    constructor (x: real, y: real)
      ensures this.x == x && this.y == y
    {
      this.x := x;
      this.y := y;
    }

    method Add(v: Vector)
      modifies this
      ensures x == old(x) + old(v.x) && y == old(y) + old(v.y)
    {
      var vx, vy := v.x, v.y;
      x := x + vx;
      y := y + vy;
    }

    method Sub(v: Vector)
      modifies this
      ensures x == old(x) - old(v.x) && y == old(y) - old(v.y)
    {
      var vx, vy := v.x, v.y;
      x := x - vx;
      y := y - vy;
    }

    method Mult(n: real)
      modifies this
      ensures x == old(x) * n && y == old(y) * n
    {
      x := x * n;
      y := y * n;
    }

    method Div(n: real)
      requires n != 0.0
      modifies this
      ensures x == old(x) / n && y == old(y) / n
    {
      x := x / n;
      y := y / n;
    }
  }

  /** One axis of `_checkWorldEdges`: an item of size `size` at `pos` moving
    * at `vel` in a world of extent `extent`. Returns the new position and
    * velocity. */
  function Bounce(pos: real, vel: real, size: real, extent: real, bounciness: real): (r: (real, real))
    ensures pos + size / 2.0 > extent ==> r == (extent - size / 2.0, -bounciness * vel)
    ensures pos + size / 2.0 <= extent && pos < size / 2.0 ==> r == (size / 2.0, -bounciness * vel)
    ensures size / 2.0 <= pos && pos + size / 2.0 <= extent ==> r == (pos, vel)
    ensures 0.0 <= size <= extent ==> size / 2.0 <= r.0 && r.0 + size / 2.0 <= extent
  {
    if pos + size / 2.0 > extent then (extent - size / 2.0, vel * (-1.0 * bounciness))
    else if pos < size / 2.0 then (size / 2.0, vel * (-1.0 * bounciness))
    else (pos, vel)
  }

  /** `_checkWorldEdges`: bounce each axis independently against the world's
    * width and height. */
  method CheckWorldEdges(location: Vector, velocity: Vector, width: real, height: real,
                         worldWidth: real, worldHeight: real, bounciness: real)
    requires location != velocity
    modifies location, velocity
    ensures (location.x, velocity.x) == Bounce(old(location.x), old(velocity.x), width, worldWidth, bounciness)
    ensures (location.y, velocity.y) == Bounce(old(location.y), old(velocity.y), height, worldHeight, bounciness)
  {
    var bx := Bounce(location.x, velocity.x, width, worldWidth, bounciness);
    location.x, velocity.x := bx.0, bx.1;
    var bY := Bounce(location.y, velocity.y, height, worldHeight, bounciness);
    location.y, velocity.y := bY.0, bY.1;
  }
}
