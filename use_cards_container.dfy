/**
 * The `useCardsContainer` hook: the pillar list, its rendering order and
 * metadata, and the selection map that filters which pillars are visible,
 * with the four updaters (toggle one, set exactly, select all, clear all).
 */
module UseCardsContainer {
  import opened Wrappers
  import opened Pillars

  type Selection = map<AkaladromPillar, bool>

  /** `selectedMap[key]` read as a condition: a missing key is falsy. */
  function Lookup(m: Selection, k: AkaladromPillar): bool {
    k in m && m[k]
  }

  /** True when every key starts selected: no `initialVisible`, or an empty one. */
  function SetAll(initialVisible: Option<seq<AkaladromPillar>>): bool {
    initialVisible.None? || |initialVisible.value| == 0
  }

  /** The initial map: one entry per key of `order`, set when every key starts selected or the key is listed. */
  function Initial(order: seq<AkaladromPillar>, initialVisible: Option<seq<AkaladromPillar>>): Selection {
    map k | k in order :: SetAll(initialVisible) || k in initialVisible.value
  }

  /** The `useMemo` that builds the initial map, key by key over `order`. */
  method InitialSelection(order: seq<AkaladromPillar>, initialVisible: Option<seq<AkaladromPillar>>)
    returns (start: Selection)
    ensures start == Initial(order, initialVisible)
    ensures start.Keys == set k | k in order
    ensures forall k :: k in order ==> (Lookup(start, k) <==> SetAll(initialVisible) || k in initialVisible.value)
  {
    var setAll := initialVisible.None? || |initialVisible.value| == 0;
    start := map[];
    var i := 0;
    while i < |order|
      invariant 0 <= i <= |order|
      invariant start == Initial(order[..i], initialVisible)
    {
      var k := order[i];
      start := start[k := if setAll then true else k in initialVisible.value];
      assert order[..i + 1] == order[..i] + [k];
      i := i + 1;
    }
    assert order[..i] == order;
  }

  /** `pillars.filter(p => selectedMap[p.key])`. */
  function VisiblePillars(pillars: seq<Pillar>, m: Selection): (r: seq<Pillar>)
    ensures forall p :: p in r <==> p in pillars && Lookup(m, p.key)
    ensures |r| <= |pillars|
  {
    if pillars == [] then []
    else (if Lookup(m, pillars[0].key) then [pillars[0]] else []) + VisiblePillars(pillars[1..], m)
  }

  /** Only the selection of the listed keys matters to the filter. */
  lemma {:induction false} VisibleDependsOnLookup(pillars: seq<Pillar>, m1: Selection, m2: Selection)
    requires forall p :: p in pillars ==> (Lookup(m1, p.key) <==> Lookup(m2, p.key))
    ensures VisiblePillars(pillars, m1) == VisiblePillars(pillars, m2)
  {
    if pillars != [] {
      VisibleDependsOnLookup(pillars[1..], m1, m2);
    }
  }

  /** When every listed key is selected the filter keeps the whole list, in its order. */
  lemma {:induction false} VisibleAll(pillars: seq<Pillar>, m: Selection)
    requires forall p :: p in pillars ==> Lookup(m, p.key)
    ensures VisiblePillars(pillars, m) == pillars
  {
    if pillars != [] {
      VisibleAll(pillars[1..], m);
      assert pillars == [pillars[0]] + pillars[1..];
    }
  }

  /** When no listed key is selected the filter keeps nothing. */
  lemma {:induction false} VisibleNone(pillars: seq<Pillar>, m: Selection)
    requires forall p :: p in pillars ==> !Lookup(m, p.key)
    ensures VisiblePillars(pillars, m) == []
  {
    if pillars != [] {
      VisibleNone(pillars[1..], m);
    }
  }

  /** The filter keeps the relative order: filtering a concatenation filters each part. */
  lemma {:induction false} VisibleConcat(a: seq<Pillar>, b: seq<Pillar>, m: Selection)
    ensures VisiblePillars(a + b, m) == VisiblePillars(a, m) + VisiblePillars(b, m)
  {
    if a != [] {
      VisibleConcat(a[1..], b, m);
      assert (a + b)[1..] == a[1..] + b;
    } else {
      assert a + b == b;
    }
  }

  /** `{ ...prev, [key]: !prev[key] }`. */
  function Toggled(m: Selection, key: AkaladromPillar): (r: Selection)
    ensures r.Keys == m.Keys + {key}
    ensures Lookup(r, key) == !Lookup(m, key)
    ensures forall k :: k != key ==> (k in r <==> k in m) && (k in m ==> r[k] == m[k])
  {
    m[key := !Lookup(m, key)]
  }

  /** Toggling twice restores the selection of every key, and the map itself when the key was present. */
  lemma ToggleTwice(m: Selection, key: AkaladromPillar)
    ensures forall k :: Lookup(Toggled(Toggled(m, key), key), k) == Lookup(m, k)
    ensures key in m ==> Toggled(Toggled(m, key), key) == m
  {
    var r := Toggled(Toggled(m, key), key);
    if key in m {
      assert r.Keys == m.Keys;
      assert forall k :: k in m ==> r[k] == m[k];
    }
  }

  /** Every key of `m` set to `v`. */
  function AllSet(m: Selection, v: bool): Selection {
    map k | k in m :: v
  }

  /** Every key of `m` cleared, then every key of `keys` set. */
  function VisibleOnly(m: Selection, keys: seq<AkaladromPillar>): Selection {
    map k | k in m.Keys + (set x | x in keys) :: k in keys
  }

  /** The loop `for (const k of Object.keys(prev)) next[k] = v` on a copy of `prev`. */
  method AssignAll(prev: Selection, v: bool) returns (next: Selection)
    ensures next == AllSet(prev, v)
    ensures next.Keys == prev.Keys && forall k :: k in prev ==> Lookup(next, k) == v
  {
    next := prev;
    var pending := prev.Keys;
    while pending != {}
      invariant pending <= prev.Keys && next.Keys == prev.Keys
      invariant forall k :: k in prev && k !in pending ==> next[k] == v
      invariant forall k :: k in pending ==> next[k] == prev[k]
      decreases |pending|
    {
      var k :| k in pending;
      next := next[k := v];
      pending := pending - {k};
    }
  }

  /** The `setVisiblePillars` updater: clear every key of `prev`, then set each of `keys`. */
  method SetVisibleUpdate(prev: Selection, keys: seq<AkaladromPillar>) returns (next: Selection)
    ensures next == VisibleOnly(prev, keys)
    ensures next.Keys == prev.Keys + set k | k in keys
    ensures forall k :: Lookup(next, k) <==> k in keys
  {
    next := AssignAll(prev, false);
    var i := 0;
    while i < |keys|
      invariant 0 <= i <= |keys|
      invariant next.Keys == prev.Keys + set x | x in keys[..i]
      invariant forall k :: k in next ==> next[k] == (k in keys[..i])
    {
      next := next[keys[i] := true];
      assert keys[..i + 1] == keys[..i] + [keys[i]];
      i := i + 1;
    }
    assert keys[..i] == keys;
  }

  /** Selecting all, or clearing all, a second time changes nothing. */
  lemma AllSetIdempotent(m: Selection, v: bool)
    ensures AllSet(AllSet(m, v), v) == AllSet(m, v)
    ensures AllSet(m, v).Keys == m.Keys
  {
  }

  /** Setting an empty list clears everything, exactly as `clearAll` does. */
  lemma SetNoneIsClear(m: Selection)
    ensures VisibleOnly(m, []) == AllSet(m, false)
  {
    assert (set x: AkaladromPillar | x in []) == {};
  }

  /** Setting the keys is idempotent: applying it to its own result changes nothing. */
  lemma SetVisibleIdempotent(m: Selection, keys: seq<AkaladromPillar>)
    ensures VisibleOnly(VisibleOnly(m, keys), keys) == VisibleOnly(m, keys)
  {
  }

  /** After `setVisiblePillars(keys)` the visible pillars are exactly those whose key is listed in `keys`. */
  lemma VisibleAfterSet(pillars: seq<Pillar>, m: Selection, keys: seq<AkaladromPillar>)
    ensures forall p :: p in VisiblePillars(pillars, VisibleOnly(m, keys)) <==> p in pillars && p.key in keys
  {
  }

  /** The hook's state: the data it was given and the selection map. */
  class Container {
    const pillars: seq<Pillar>
    const order: seq<AkaladromPillar>
    const meta: AkaladromPillar -> PillarMeta
    var selectedMap: Selection

    /** Every key of the rendering order has an entry in the selection map. */
    ghost predicate Valid()
      reads this
    {
      forall k :: k in order ==> k in selectedMap
    }

    /** `visiblePillars`. */
    function Visible(): (r: seq<Pillar>)
      reads this
      ensures forall p :: p in r <==> p in pillars && Lookup(selectedMap, p.key)
    {
      VisiblePillars(pillars, selectedMap)
    }

    /** `useCardsContainer({ pillars, order, meta, initialVisible })`, defaults from the pillar domain. */
    constructor (pillars: Option<seq<Pillar>>, order: Option<seq<AkaladromPillar>>,
                 meta: Option<AkaladromPillar -> PillarMeta>, initialVisible: Option<seq<AkaladromPillar>>)
      ensures Valid()
      ensures this.pillars == pillars.GetOr(BasePillars) && this.order == order.GetOr(Order)
      ensures this.meta == meta.GetOr(Meta)
      ensures selectedMap == Initial(this.order, initialVisible)
    {
      this.pillars := pillars.GetOr(BasePillars);
      this.order := order.GetOr(Order);
      this.meta := meta.GetOr(Meta);
      new;
      selectedMap := InitialSelection(this.order, initialVisible);
    }

    /** `togglePillar(key)`. */
    method TogglePillar(key: AkaladromPillar)
      requires Valid()
      modifies this`selectedMap
      ensures Valid()
      ensures selectedMap == Toggled(old(selectedMap), key)
    {
      selectedMap := selectedMap[key := !Lookup(selectedMap, key)];
    }

    /** `setVisiblePillars(keys)`. */
    method SetVisiblePillars(keys: seq<AkaladromPillar>)
      requires Valid()
      modifies this`selectedMap
      ensures Valid()
      ensures selectedMap == VisibleOnly(old(selectedMap), keys)
    {
      selectedMap := SetVisibleUpdate(selectedMap, keys);
    }

    /** `selectAll()`. */
    method SelectAll()
      requires Valid()
      modifies this`selectedMap
      ensures Valid()
      ensures selectedMap == AllSet(old(selectedMap), true)
    {
      selectedMap := AssignAll(selectedMap, true);
    }

    /** `clearAll()`. */
    method ClearAll()
      requires Valid()
      modifies this`selectedMap
      ensures Valid()
      ensures selectedMap == AllSet(old(selectedMap), false)
      ensures Visible() == []
    {
      selectedMap := AssignAll(selectedMap, false);
      VisibleNone(pillars, selectedMap);
    }
  }

  /**
   * With the default data every pillar starts visible; clearing hides them
   * all and selecting all shows them again in their listed order.
   */
  method DefaultScenario()
  {
    AllInOrder();
    BasePillarsShape();
    var c := new Container(None, None, None, None);
    assert forall p :: p in c.pillars ==> Lookup(c.selectedMap, p.key);
    VisibleAll(c.pillars, c.selectedMap);
    assert c.Visible() == BasePillars;
    c.ClearAll();
    assert c.Visible() == [];
    c.SelectAll();
    VisibleAll(c.pillars, c.selectedMap);
    assert c.Visible() == BasePillars;
  }
}
