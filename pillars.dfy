/**
 * The canonical pillar domain: the eight keys in their canonical order, their
 * visual metadata, the base entities, the merged lookup table and the key
 * helpers (membership, case-insensitive normalisation, ordered subsets).
 */
module Pillars {
  import opened Wrappers

  datatype AkaladromPillar = Anemo | Aurora | Dendro | Elementis | Geo | Malvrec | Pyro | Veneno

  /** The string a key is at run time. */
  function KeyName(p: AkaladromPillar): string {
    match p
    case Anemo => "Anemo"
    case Aurora => "Aurora"
    case Dendro => "Dendro"
    case Elementis => "Elementis"
    case Geo => "Geo"
    case Malvrec => "Malvrec"
    case Pyro => "Pyro"
    case Veneno => "Veneno"
  }

  /** `AK_PILLARS_ORDER`. */
  const Order: seq<AkaladromPillar> := [Anemo, Aurora, Dendro, Elementis, Geo, Malvrec, Pyro, Veneno]

  /** The canonical order lists every key exactly once, and the keys are distinct strings. */
  lemma OrderIsCanonical()
    ensures |Order| == 8
    ensures forall p :: p in Order
    ensures forall i, j :: 0 <= i < j < |Order| ==> Order[i] != Order[j]
    ensures forall p, q :: KeyName(p) == KeyName(q) ==> p == q
  {
    AllInOrder();
    forall p, q | KeyName(p) == KeyName(q)
      ensures p == q
    {
      KeyNamesDiffer(p, q);
    }
  }

  lemma AllInOrder()
    ensures forall p :: p in Order
  {
    forall p ensures p in Order {
      assert Order[Position(p)] == p;
    }
  }

  lemma KeyNamesDiffer(p: AkaladromPillar, q: AkaladromPillar)
    requires KeyName(p) == KeyName(q)
    ensures p == q
  {
    assert LowerKeyName(p) == LowerKeyName(q) by {
      LowerOfKeyName(p);
      LowerOfKeyName(q);
    }
  }

  /** `AkaladromPillar` position in `AK_PILLARS_ORDER`. */
  function Position(p: AkaladromPillar): (i: nat)
    ensures i < |Order| && Order[i] == p
  {
    match p
    case Anemo => 0
    case Aurora => 1
    case Dendro => 2
    case Elementis => 3
    case Geo => 4
    case Malvrec => 5
    case Pyro => 6
    case Veneno => 7
  }

  /** Visual metadata: label, hex colour, optional emoji. */
  datatype PillarMeta = PillarMeta(labelText: string, color: string, emoji: Option<string>)

  /** `AK_PILLARS_META`. */
  function Meta(p: AkaladromPillar): PillarMeta {
    match p
    case Anemo => PillarMeta("Anemo", "#b2c0bbff", Some("\U{1F32C}\U{FE0F}"))
    case Aurora => PillarMeta("Aurora", "#0bf5d6ff", Some("\U{1F305}"))
    case Dendro => PillarMeta("Dendro", "#0ec527ff", Some("\U{1F33F}"))
    case Elementis => PillarMeta("Elementis", "#f3a6e9ff", Some("\U{2728}"))
    case Geo => PillarMeta("Geo", "#583a25ff", Some("\U{1FAA8}"))
    case Malvrec => PillarMeta("Malvrec", "#9c0000ff", Some("\U{1F578}\U{FE0F}"))
    case Pyro => PillarMeta("Pyro", "#d48318ff", Some("\U{1F525}"))
    case Veneno => PillarMeta("Veneno", "#790291ff", Some("\U{1F40D}"))
  }

  /** A pillar entity; `color` and `emoji` are optional overrides of the metadata. */
  datatype Pillar = Pillar(
    key: AkaladromPillar, name: string, description: Option<string>,
    color: Option<string>, emoji: Option<string>)

  /** `AK_PILLARS`. */
  const BasePillars: seq<Pillar> := [
    Pillar(Anemo, "Anemo", Some("Memoria en movimiento, viento, ecos."), None, None),
    Pillar(Aurora, "Aurora", Some("Agua y rayo, cambio súbito, tensión y descarga."), None, None),
    Pillar(Dendro, "Dendro", Some("Brote, ritmo orgánico, simbiosis."), None, None),
    Pillar(Elementis, "Elementis", Some("Arcanos, reglas y transmutación."), None, None),
    Pillar(Geo, "Geo", Some("Piedra viva, estructura, runas y estabilidad."), None, None),
    Pillar(Malvrec, "Malvrec", Some("Contradicción, manipulación, ambivalencia humana."), None, None),
    Pillar(Pyro, "Pyro", Some("Impulso, forja, furor y chispa de vida."), None, None),
    Pillar(Veneno, "Veneno", Some("Permanencia, corrupción lenta, resistencia y cura amarga."), None, None)
  ]

  /** A pillar entity merged with its metadata (`Pillar & PillarMeta`). */
  datatype PillarView = PillarView(
    key: AkaladromPillar, name: string, description: Option<string>,
    color: string, emoji: Option<string>, labelText: string)

  /** `find` of the first entity with the given key. */
  function FindByKey(ps: seq<Pillar>, key: AkaladromPillar): (r: Option<Pillar>)
    ensures r.Some? ==> r.value in ps && r.value.key == key
    ensures r.None? ==> forall p :: p in ps ==> p.key != key
  {
    if ps == [] then None
    else if ps[0].key == key then Some(ps[0])
    else FindByKey(ps[1..], key)
  }

  /** The base entity of each key (the `!` in the source never fails on these tables). */
  function Base(key: AkaladromPillar): (p: Pillar)
    ensures p in BasePillars && p.key == key
  {
    BasePillarsShape();
    var found := FindByKey(BasePillars, key);
    assert BasePillars[Position(key)].key == key;
    found.value
  }

  /** Entry `i` of `AK_PILLARS` is the `i`-th canonical key, named after it, without overrides. */
  lemma BasePillarsShape()
    ensures |BasePillars| == |Order|
    ensures forall i :: 0 <= i < |BasePillars| ==>
      && BasePillars[i].key == Order[i] && BasePillars[i].name == KeyName(Order[i])
      && BasePillars[i].color.None? && BasePillars[i].emoji.None?
  {
  }

  lemma BaseFacts(key: AkaladromPillar)
    ensures Base(key) == BasePillars[Position(key)]
    ensures Base(key).name == KeyName(key) && Base(key).color.None? && Base(key).emoji.None?
  {
    BasePillarsShape();
    var b := Base(key);
    var i :| 0 <= i < |BasePillars| && BasePillars[i] == b;
    assert Order[i] == key;
  }

  /** `{ ...base, color: base.color ?? meta.color, emoji: base.emoji ?? meta.emoji, label: meta.label }`. */
  function Merge(base: Pillar, meta: PillarMeta): (v: PillarView)
    ensures v.key == base.key && v.name == base.name && v.description == base.description
    ensures v.labelText == meta.labelText
    ensures v.color == (if base.color.Some? then base.color.value else meta.color)
    ensures v.emoji == (if base.emoji.Some? then base.emoji else meta.emoji)
  {
    PillarView(base.key, base.name, base.description, base.color.GetOr(meta.color),
               if base.emoji.Some? then base.emoji else meta.emoji, meta.labelText)
  }

  /** The merged entry `AK_PILLARS_MAP` holds for `key`. */
  function Merged(key: AkaladromPillar): PillarView {
    Merge(Base(key), Meta(key))
  }

  /** `AK_PILLARS_MAP`: the merged entry of every canonical key. */
  function PillarsMap(): (m: map<AkaladromPillar, PillarView>)
    ensures forall k :: k in m && m[k] == Merged(k)
  {
    AllInOrder();
    map k | k in Order :: Merged(k)
  }

  /** `getPillarMeta(key)`: labelled with the key's own name, an 8-digit hex colour, always an emoji. */
  function GetPillarMeta(key: AkaladromPillar): (m: PillarMeta)
    ensures m.labelText == KeyName(key)
    ensures |m.color| == 9 && m.color[0] == '#'
    ensures m.emoji.Some?
  {
    Meta(key)
  }

  /** `getPillar(key)`: the entry for `key`, label and (on these tables) colour and emoji from the metadata. */
  function GetPillar(key: AkaladromPillar): (v: PillarView)
    ensures v.key == key && v.name == KeyName(key)
    ensures v.labelText == Meta(key).labelText
    ensures v.color == Meta(key).color && v.emoji == Meta(key).emoji
  {
    BaseFacts(key);
    PillarsMap()[key]
  }

  /** The canonical keys as strings, in order. */
  function OrderNames(): seq<string> {
    seq(|Order|, i requires 0 <= i < |Order| => KeyName(Order[i]))
  }

  /** `isAkaladromPillar(value)`: case-sensitive membership among the canonical keys. */
  function IsAkaladromPillar(value: string): (b: bool)
    ensures b <==> exists p :: KeyName(p) == value
  {
    OrderNamesMembership(value);
    value in OrderNames()
  }

  lemma OrderNamesMembership(value: string)
    ensures value in OrderNames() <==> exists p :: KeyName(p) == value
  {
    if exists p :: KeyName(p) == value {
      var p :| KeyName(p) == value;
      assert OrderNames()[Position(p)] == value;
    }
  }

  // ---------------------------------------------------------------------------
  // Case-insensitive normalisation
  // ---------------------------------------------------------------------------

  function LowerChar(c: char): char {
    if 'A' <= c <= 'Z' then (c as int + 32) as char else c
  }

  /** `toLowerCase`, on the ASCII letters. */
  function Lower(s: string): (r: string)
    ensures |r| == |s| && forall i :: 0 <= i < |s| ==> r[i] == LowerChar(s[i])
  {
    seq(|s|, i requires 0 <= i < |s| => LowerChar(s[i]))
  }

  function LowerKeyName(p: AkaladromPillar): string {
    match p
    case Anemo => "anemo"
    case Aurora => "aurora"
    case Dendro => "dendro"
    case Elementis => "elementis"
    case Geo => "geo"
    case Malvrec => "malvrec"
    case Pyro => "pyro"
    case Veneno => "veneno"
  }

  lemma LowerOfKeyName(p: AkaladromPillar)
    ensures Lower(KeyName(p)) == LowerKeyName(p)
  {
  }

  /** No two keys differ only in case. */
  lemma LowerKeysDistinct(p: AkaladromPillar, q: AkaladromPillar)
    requires Lower(KeyName(p)) == Lower(KeyName(q))
    ensures p == q
  {
    LowerOfKeyName(p);
    LowerOfKeyName(q);
  }

  /** The first key of `keys` whose lower-case name is `target`. */
  function FindLower(keys: seq<AkaladromPillar>, target: string): (r: Option<AkaladromPillar>)
    ensures r.Some? ==> r.value in keys && Lower(KeyName(r.value)) == target
    ensures r.None? ==> forall p :: p in keys ==> Lower(KeyName(p)) != target
  {
    if keys == [] then None
    else if Lower(KeyName(keys[0])) == target then Some(keys[0])
    else FindLower(keys[1..], target)
  }

  /**
   * `normalizePillar(value)`: the canonical key equal to `value` up to case,
   * or none when there is no such key.
   */
  function NormalizePillar(value: string): (r: Option<AkaladromPillar>)
    ensures r.Some? ==> Lower(KeyName(r.value)) == Lower(value) && IsAkaladromPillar(KeyName(r.value))
    ensures r.None? ==> forall p :: Lower(KeyName(p)) != Lower(value)
  {
    AllInOrder();
    FindLower(Order, Lower(value))
  }

  /** Normalising a canonical key, in any letter case, gives that key back. */
  lemma NormalizeCanonical(p: AkaladromPillar, value: string)
    requires Lower(value) == Lower(KeyName(p))
    ensures NormalizePillar(value) == Some(p)
    ensures NormalizePillar(KeyName(p)) == Some(p)
  {
    var r := NormalizePillar(value);
    if r.Some? {
      LowerKeysDistinct(r.value, p);
    }
  }

  /** `normalizePillar("pYrO")` is `"Pyro"`. */
  lemma NormalizeExample()
    ensures NormalizePillar("pYrO") == Some(Pyro)
  {
    assert Lower("pYrO") == "pyro";
    LowerOfKeyName(Pyro);
    NormalizeCanonical(Pyro, "pYrO");
  }

  /** A value whose length is no key's length (the empty string, say) normalises to nothing. */
  lemma NormalizeUnknown(value: string)
    requires forall p :: |KeyName(p)| != |value|
    ensures NormalizePillar(value) == None
  {
    forall p ensures Lower(KeyName(p)) != Lower(value) {
      assert |Lower(KeyName(p))| == |KeyName(p)|;
    }
  }

  // ---------------------------------------------------------------------------
  // Ordered subsets
  // ---------------------------------------------------------------------------

  /** `order.filter(k => set ? set.has(k) : true)`. */
  function FilterKeys(order: seq<AkaladromPillar>, keys: Option<set<AkaladromPillar>>): (r: seq<AkaladromPillar>)
    ensures forall k :: k in r <==> k in order && (keys.None? || k in keys.value)
    ensures |r| <= |order|
  {
    if order == [] then []
    else (if keys.None? || order[0] in keys.value then [order[0]] else []) + FilterKeys(order[1..], keys)
  }

  /** Positions strictly increase along `s`: canonical relative order, no duplicates. */
  predicate Ascending(s: seq<AkaladromPillar>) {
    forall i, j :: 0 <= i < j < |s| ==> Position(s[i]) < Position(s[j])
  }

  /** The canonical order is ascending by definition of `Position`. */
  lemma OrderAscending()
    ensures Ascending(Order)
  {
    forall i, j | 0 <= i < j < |Order|
      ensures Position(Order[i]) < Position(Order[j])
    {
      assert Position(Order[i]) == i && Position(Order[j]) == j;
    }
  }

  /** Filtering an ascending order keeps it ascending. */
  lemma {:induction false} FilterKeysOrdered(order: seq<AkaladromPillar>, keys: Option<set<AkaladromPillar>>)
    requires Ascending(order)
    ensures Ascending(FilterKeys(order, keys))
  {
    if order != [] {
      FilterKeysOrdered(order[1..], keys);
      var rest := FilterKeys(order[1..], keys);
      if keys.None? || order[0] in keys.value {
        forall k | k in rest
          ensures Position(order[0]) < Position(k)
        {
          assert k in order[1..];
          var j :| 0 <= j < |order[1..]| && order[1..][j] == k;
          assert order[j + 1] == k;
        }
        AscendingCons(order[0], rest);
      }
    }
  }

  lemma AscendingCons(x: AkaladromPillar, s: seq<AkaladromPillar>)
    requires Ascending(s)
    requires forall k :: k in s ==> Position(x) < Position(k)
    ensures Ascending([x] + s)
  {
    var r := [x] + s;
    forall i, j | 0 <= i < j < |r|
      ensures Position(r[i]) < Position(r[j])
    {
      assert r[j] == s[j - 1];
      if i > 0 {
        assert r[i] == s[i - 1];
      }
    }
  }

  /** The `Set` of requested keys, or none when every key is requested. */
  function KeyFilter(keys: Option<seq<AkaladromPillar>>): (f: Option<set<AkaladromPillar>>)
    ensures f.None? <==> keys.None?
    ensures keys.Some? ==> forall k :: k in f.value <==> k in keys.value
  {
    if keys.Some? then Some(set k | k in keys.value) else None
  }

  /**
   * `r` holds the merged entry of every requested key (of every key when none
   * is given) and nothing else, in canonical order, each key once.
   */
  predicate Selects(keys: Option<seq<AkaladromPillar>>, r: seq<PillarView>) {
    && (forall i :: 0 <= i < |r| ==> r[i] == GetPillar(r[i].key) && (keys.None? || r[i].key in keys.value))
    && (keys.Some? ==> forall k :: k in keys.value ==> GetPillar(k) in r)
    && (forall i, j :: 0 <= i < j < |r| ==> Position(r[i].key) < Position(r[j].key))
  }

  /**
   * `getPillars(keys?)`: the merged entries of the listed keys (all keys when
   * none are given), in canonical order and without duplicates.
   */
  function GetPillars(keys: Option<seq<AkaladromPillar>>): (r: seq<PillarView>)
    ensures Selects(keys, r)
  {
    var filter := KeyFilter(keys);
    var ks := FilterKeys(Order, filter);
    GetPillarsFacts(keys, filter, ks);
    ViewsFacts(keys, ks);
    Views(ks)
  }

  lemma ViewsFacts(keys: Option<seq<AkaladromPillar>>, ks: seq<AkaladromPillar>)
    requires forall k :: k in ks ==> keys.None? || k in keys.value
    requires keys.Some? ==> forall k :: k in keys.value ==> k in ks
    requires Ascending(ks)
    ensures Selects(keys, Views(ks))
  {
  }

  /** Without a key list, `getPillars` gives every merged entry in canonical order. */
  lemma GetAllPillars()
    ensures var r := GetPillars(None);
      |r| == |Order| && forall i :: 0 <= i < |r| ==> r[i] == GetPillar(Order[i])
  {
    AllKeysFilter(Order);
    assert GetPillars(None) == Views(Order);
  }

  /** `keys.map(k => AK_PILLARS_MAP[k])`. */
  function Views(ks: seq<AkaladromPillar>): (r: seq<PillarView>)
    ensures |r| == |ks| && forall i :: 0 <= i < |ks| ==> r[i] == GetPillar(ks[i])
    ensures forall k :: k in ks ==> GetPillar(k) in r
  {
    if ks == [] then [] else [GetPillar(ks[0])] + Views(ks[1..])
  }

  /** The keys `getPillars` selects: exactly the requested ones, ascending. */
  lemma GetPillarsFacts(keys: Option<seq<AkaladromPillar>>, filter: Option<set<AkaladromPillar>>,
                        ks: seq<AkaladromPillar>)
    requires filter == KeyFilter(keys) && ks == FilterKeys(Order, filter)
    ensures forall k :: k in ks ==> keys.None? || k in keys.value
    ensures keys.Some? ==> forall k :: k in keys.value ==> k in ks
    ensures Ascending(ks)
  {
    OrderAscending();
    FilterKeysOrdered(Order, filter);
    AllInOrder();
  }

  lemma {:induction false} AllKeysFilter(order: seq<AkaladromPillar>)
    ensures FilterKeys(order, None) == order
  {
    if order != [] {
      AllKeysFilter(order[1..]);
      assert order == [order[0]] + order[1..];
    }
  }
}
