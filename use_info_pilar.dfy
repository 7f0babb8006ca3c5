/**
 * The `useInfoPilar` hook: resolves which pillar a page shows, from a direct
 * key or a numeric id, and derives the world-data keys of that pillar
 * (continent, peoples, main race, classes) together with its colour.
 */
module UseInfoPilar {
  import opened Wrappers
  import opened Pillars

  datatype AkaContinent =
    CuernoDeTierra | AltosBrumales | TierrasMixtas | Naeryl | Dregvor
    | TulaVarnem | DesiertoSilencioso | GrietaTercerLatido

  datatype AkaRace = Demonios | Elfos | Fantasmas | Bestiales | Humanos | Enanos | Orcos | NoMuertos

  datatype AkaClass = Guerrero | Mago | Artificiero | Cazador | Arquero | Asesino | Musico | Curandero | Brujo

  /** `PILLAR_TO_CONTINENT`: no pillar lies in the rift, and Tula Varnem holds exactly Elementis and Geo. */
  function PillarToContinent(p: AkaladromPillar): (c: AkaContinent)
    ensures c != GrietaTercerLatido
    ensures c == TulaVarnem <==> p == Elementis || p == Geo
  {
    match p
    case Anemo => AltosBrumales
    case Aurora => Naeryl
    case Dendro => TierrasMixtas
    case Elementis => TulaVarnem
    case Geo => TulaVarnem
    case Malvrec => Dregvor
    case Pyro => CuernoDeTierra
    case Veneno => DesiertoSilencioso
  }

  /** `PILLAR_TO_PEOPLES`: one or two peoples per pillar, none listed twice. */
  function PillarToPeoples(p: AkaladromPillar): (ps: seq<AkaRace>)
    ensures 1 <= |ps| <= 2
    ensures forall i, j :: 0 <= i < j < |ps| ==> ps[i] != ps[j]
  {
    match p
    case Anemo => [Fantasmas]
    case Aurora => [Elfos]
    case Dendro => [Orcos]
    case Elementis => [Enanos]
    case Geo => [Demonios, Orcos]
    case Malvrec => [Humanos]
    case Pyro => [Bestiales]
    case Veneno => [NoMuertos]
  }

  /** Two different pillars share a continent only when they are Elementis and Geo. */
  lemma ContinentsShared(p: AkaladromPillar, q: AkaladromPillar)
    requires p != q && PillarToContinent(p) == PillarToContinent(q)
    ensures {p, q} == {Elementis, Geo}
  {
  }

  /** `PILLAR_TO_MAIN_RACE`: the main race is always the first of the pillar's peoples. */
  function PillarToMainRace(p: AkaladromPillar): (r: AkaRace)
    ensures |PillarToPeoples(p)| > 0 && r == PillarToPeoples(p)[0]
  {
    match p
    case Anemo => Fantasmas
    case Aurora => Elfos
    case Dendro => Orcos
    case Elementis => Enanos
    case Geo => Demonios
    case Malvrec => Humanos
    case Pyro => Bestiales
    case Veneno => NoMuertos
  }

  /** `PILLAR_TO_CLASSES`: two distinct classes per pillar. */
  function PillarToClasses(p: AkaladromPillar): (cs: seq<AkaClass>)
    ensures |cs| == 2 && cs[0] != cs[1]
  {
    match p
    case Anemo => [Musico, Cazador]
    case Aurora => [Mago, Arquero]
    case Dendro => [Curandero, Cazador]
    case Elementis => [Mago, Artificiero]
    case Geo => [Guerrero, Artificiero]
    case Malvrec => [Asesino, Brujo]
    case Pyro => [Guerrero, Cazador]
    case Veneno => [Brujo, Curandero]
  }

  /**
   * The key the page shows: `pillarKey` when given; otherwise entry `id` of
   * the canonical order when `id` is an index of it; otherwise the first key.
   */
  function ResolveKey(id: Option<int>, pillarKey: Option<AkaladromPillar>): (k: AkaladromPillar)
    ensures pillarKey.Some? ==> k == pillarKey.value
    ensures pillarKey.None? && id.Some? && 0 <= id.value < |Order| ==> k == Order[id.value]
    ensures pillarKey.None? && (id.None? || id.value < 0 || id.value >= |Order|) ==> k == Order[0]
  {
    if pillarKey.Some? then pillarKey.value
    else
      var safe := if id.Some? && id.value >= 0 && id.value < |Order| then id.value else 0;
      Order[safe]
  }

  /** `findIndex`: the first index holding `x`, or -1. */
  function FindIndex<T(==)>(s: seq<T>, x: T): (i: int)
    ensures -1 <= i < |s|
    ensures i >= 0 ==> s[i] == x && forall j :: 0 <= j < i ==> s[j] != x
    ensures i == -1 <==> x !in s
  {
    if s == [] then -1
    else if s[0] == x then 0
    else
      var r := FindIndex(s[1..], x);
      if r == -1 then -1 else r + 1
  }

  /** What the hook returns; `imageSrc` is not part of this model. */
  datatype InfoPilar = InfoPilar(
    id: int, key: AkaladromPillar, color: string,
    continentKey: AkaContinent, peoples: seq<AkaRace>, mainRace: AkaRace, classes: seq<AkaClass>)

  /** `useInfoPilar({ id, pillarKey })`. */
  function InfoFor(id: Option<int>, pillarKey: Option<AkaladromPillar>): (info: InfoPilar)
    ensures info.key == ResolveKey(id, pillarKey)
    ensures 0 <= info.id < |Order| && Order[info.id] == info.key && info.id == Position(info.key)
    ensures info.color == Meta(info.key).color
    ensures info.continentKey == PillarToContinent(info.key)
    ensures info.peoples == PillarToPeoples(info.key) && info.classes == PillarToClasses(info.key)
    ensures info.mainRace == PillarToMainRace(info.key) && info.mainRace in info.peoples
  {
    var key := ResolveKey(id, pillarKey);
    var meta := GetPillar(key);
    var resolvedId := FindIndex(Order, key);
    OrderIsCanonical();
    assert Order[Position(key)] == key;
    InfoPilar(resolvedId, key, meta.color, PillarToContinent(key), PillarToPeoples(key),
              PillarToMainRace(key), PillarToClasses(key))
  }

  /** An id that already names a pillar comes back unchanged: id and key agree both ways. */
  lemma IdRoundTrip(id: int)
    requires 0 <= id < |Order|
    ensures InfoFor(Some(id), None).id == id
    ensures InfoFor(None, Some(Order[id])).id == id
  {
    OrderIsCanonical();
  }

  /** The key alone decides the result: a direct key overrides any id. */
  lemma KeyOverridesId(id: Option<int>, p: AkaladromPillar)
    ensures InfoFor(id, Some(p)) == InfoFor(None, Some(p))
    ensures InfoFor(id, Some(p)).id == Position(p)
  {
  }

  /** A missing, negative or too large id falls back to the first pillar, `Anemo`, id 0. */
  lemma FallbackToFirst(id: Option<int>)
    requires id.None? || id.value < 0 || id.value >= |Order|
    ensures InfoFor(id, None).key == Anemo && InfoFor(id, None).id == 0
  {
  }

  /** `useInfoPilar({ id: 4 })` is Geo, with its two peoples and Demonios as main race. */
  lemma GeoExample()
    ensures var info := InfoFor(Some(4), None);
      info.key == Geo && info.continentKey == TulaVarnem
      && info.peoples == [Demonios, Orcos] && info.mainRace == Demonios
  {
  }
}
