/**
 * samjw.cpp: the jetways SAM animates.  A `SamJw` holds the values the
 * animation datarefs return, the library geometry and the position of the
 * object actually drawn.  `JwWorld` is the global state the file shares: the
 * reference frame and its generation, and the table of zero-config library
 * jetways that were never declared in a sam.xml.
 *
 * Floats are reals.  The simulator's reads (reference latitude/longitude,
 * the drawn object's coordinates, the plane's distance and height, the stand
 * `find_stand` picks, `rand()`) are parameters, and so is the outcome of
 * the walk over the sceneries' declared jetways, which needs the terrain
 * probe.  `tanDeg(a)` stands for `tanf(a * D2R)`.
 */
module SamJws {
  import opened Wrappers
  import opened OpenSamH

  /** samjw.h: the highest SAM3 library jetway id; `sam3_lib_jw` has entries 0..27. */
  const MaxSam3LibJw := 27

  /** samjw.h: jetways farther away than this are not considered (m). */
  const FarSkip: real := 5000.0

  /** The dataref codes `rotate1` .. `warnlight` are 0 .. 8; N_JW_DR is 9. */
  const NJwDr := 9

  /** The library table has one entry per id 0..27. */
  predicate LibOk(lib: seq<Geometry>)
  {
    |lib| == MaxSam3LibJw + 1
  }

  /** The geometry and limits `fill_library_values` copies from the library table. */
  datatype Geometry = Geometry(height: real, wheelPos: real, cabinPos: real, cabinLength: real,
                               wheelDiameter: real, wheelDistance: real,
                               minRot1: real, maxRot1: real, minRot2: real, maxRot2: real,
                               minRot3: real, maxRot3: real, minExtent: real, maxExtent: real,
                               minWheels: real, maxWheels: real)

  const ZeroGeometry := Geometry(0.0, 0.0, 0.0, 0.0, 0.0, 0.0, 0.0, 0.0, 0.0, 0.0, 0.0, 0.0, 0.0, 0.0, 0.0, 0.0)

  /** The stand a zero-config jetway belongs to: its id and true heading. */
  datatype Stand = Stand(id: string, hdgt: real)

  /**
   * `fill_library_values` on the pair (library id, geometry): once an id is
   * set nothing changes, an id outside 1..27 is refused, and otherwise the
   * id is recorded with that library entry's geometry.
   */
  function Filled(libraryId: int, geom: Geometry, id: int, lib: seq<Geometry>): (r: (int, Geometry))
    requires LibOk(lib)
    ensures libraryId != 0 || !(1 <= id <= MaxSam3LibJw) ==> r == (libraryId, geom)
    ensures libraryId == 0 && 1 <= id <= MaxSam3LibJw ==> r.0 == id && r.1 == lib[id]
  {
    if libraryId != 0 then (libraryId, geom)
    else if !Between(id as real, 1.0, MaxSam3LibJw as real) then (libraryId, geom)
    else (id, lib[id])
  }

  /** Filling is one-shot: whatever id a later call passes, a filled jetway keeps its id and geometry. */
  lemma FilledOneShot(libraryId: int, geom: Geometry, id: int, id2: int, lib: seq<Geometry>)
    requires LibOk(lib)
    ensures var f := Filled(libraryId, geom, id, lib);
            f.0 != 0 ==> Filled(f.0, f.1, id2, lib) == f
    ensures Filled(libraryId, geom, id, lib).0 in {libraryId, id}
  {
  }

  class SamJw {
    var isZcJw: bool
    /** The stand back pointer of a zero-config jetway, as the stand's id. */
    var standId: Option<string>
    /** The position of the drawn object, valid for generation `objRefGen`. */
    var x: real
    var y: real
    var z: real
    var psi: real
    var objRefGen: nat
    var libraryId: int
    /** The values fed to the animation datarefs. */
    var rotate1: real
    var rotate2: real
    var rotate3: real
    var extent: real
    var wheels: real
    var wheelrotatec: real
    var wheelrotater: real
    var wheelrotatel: real
    var warnlight: real
    var name: string
    var geom: Geometry
    var initialRot1: real
    var initialRot2: real
    var initialRot3: real
    var initialExtent: real
    /** 0 = LF1 or default, 1 = LF2, 2 = LU1. */
    var door: int
    /** Set while a plane holds this jetway. */
    var locked: bool
    /** The sam.xml position and heading of a declared jetway, and its FAR_SKIP box. */
    var latitude: real
    var longitude: real
    var heading: real
    var bbox: BBox
    /** The local position the terrain probe gave, valid for generation `xmlRefGen`. */
    var xmlX: real
    var xmlZ: real
    var xmlRefGen: nat

    /** `new SamJw()`: every member zero-initialised. */
    constructor Zeroed()
      ensures !isZcJw && standId.None? && x == 0.0 && y == 0.0 && z == 0.0 && psi == 0.0 && objRefGen == 0
      ensures libraryId == 0 && rotate1 == 0.0 && rotate2 == 0.0 && rotate3 == 0.0 && extent == 0.0 && wheels == 0.0
      ensures wheelrotatec == 0.0 && wheelrotater == 0.0 && wheelrotatel == 0.0 && warnlight == 0.0
      ensures name == "" && geom == ZeroGeometry && door == 0 && !locked
      ensures initialRot1 == 0.0 && initialRot2 == 0.0 && initialRot3 == 0.0 && initialExtent == 0.0
      ensures latitude == 0.0 && longitude == 0.0 && heading == 0.0 && bbox == BBox(0.0, 0.0, 0.0, 0.0)
      ensures xmlX == 0.0 && xmlZ == 0.0 && xmlRefGen == 0
    {
      isZcJw := false;
      standId := None;
      x, y, z, psi := 0.0, 0.0, 0.0, 0.0;
      objRefGen := 0;
      libraryId := 0;
      rotate1, rotate2, rotate3, extent, wheels := 0.0, 0.0, 0.0, 0.0, 0.0;
      wheelrotatec, wheelrotater, wheelrotatel, warnlight := 0.0, 0.0, 0.0, 0.0;
      name := "";
      geom := ZeroGeometry;
      initialRot1, initialRot2, initialRot3, initialExtent := 0.0, 0.0, 0.0, 0.0;
      door := 0;
      locked := false;
      latitude, longitude, heading := 0.0, 0.0, 0.0;
      bbox := BBox(0.0, 0.0, 0.0, 0.0);
      xmlX, xmlZ, xmlRefGen := 0.0, 0.0, 0;
    }

    /**
     * The zero-config jetway `configure_zc_jw` sets up on a zeroed `SamJw`:
     * at the drawn object, in the current generation, named "zc_", filled
     * from the library, resting at its randomised initial values.
     */
    predicate ZcConfigured(refGen: nat, id: int, ox: real, oz: real, oy: real, opsi: real, env: ZcEnv,
                           lib: seq<Geometry>, tanDeg: real -> real)
      requires LibOk(lib)
      reads this
    {
      isZcJw && name == "zc_" && standId == (if env.stand.Some? then Some(env.stand.value.id) else None)
      && x == ox && z == oz && y == oy && psi == opsi && objRefGen == refGen
      && (libraryId, geom) == Filled(0, ZeroGeometry, id, lib)
      && initialRot1 == 0.0 && initialRot2 == InitialRot2(env.stand, opsi, env.rand1)
      && initialRot3 == InitialRot3(env.rand2) && initialExtent == 0.3
      && rotate1 == 0.0 && rotate2 == initialRot2 && rotate3 == initialRot3 && extent == initialExtent
      && wheels == WheelsAt(rotate3, extent, tanDeg)
      && wheelrotatec == 0.0 && wheelrotater == 0.0 && wheelrotatel == 0.0 && warnlight == 0.0
      && !locked && door == 0
    }

    /** `new SamJw()` followed by the set-up of `configure_zc_jw`. */
    constructor ZeroConfig(refGen: nat, id: int, ox: real, oz: real, oy: real, opsi: real, env: ZcEnv,
                           lib: seq<Geometry>, tanDeg: real -> real)
      requires LibOk(lib)
      ensures ZcConfigured(refGen, id, ox, oz, oy, opsi, env, lib, tanDeg)
    {
      isZcJw := true;
      name := "zc_";
      standId := if env.stand.Some? then Some(env.stand.value.id) else None;
      x, z, y, psi := ox, oz, oy, opsi;
      objRefGen := refGen;
      var f := Filled(0, ZeroGeometry, id, lib);
      libraryId, geom := f.0, f.1;
      initialRot1 := 0.0;
      initialRot2 := InitialRot2(env.stand, opsi, env.rand1);
      initialRot3 := InitialRot3(env.rand2);
      initialExtent := 0.3;
      rotate1 := 0.0;
      rotate2 := InitialRot2(env.stand, opsi, env.rand1);
      rotate3 := InitialRot3(env.rand2);
      extent := 0.3;
      wheels := tanDeg(InitialRot3(env.rand2)) * (f.1.wheelPos + 0.3);
      wheelrotatec, wheelrotater, wheelrotatel, warnlight := 0.0, 0.0, 0.0, 0.0;
      locked := false;
      door := 0;
      latitude, longitude, heading := 0.0, 0.0, 0.0;
      bbox := BBox(0.0, 0.0, 0.0, 0.0);
      xmlX, xmlZ, xmlRefGen := 0.0, 0.0, 0;
    }

    /** The value of the dataref with code `code`; an invalid code reads 0.0. */
    function DrValue(code: int): (r: real)
      reads this`rotate1, this`rotate2, this`rotate3, this`extent, this`wheels
      reads this`wheelrotatec, this`wheelrotater, this`wheelrotatel, this`warnlight
      ensures !(0 <= code < NJwDr) ==> r == 0.0
    {
      if code == 0 then rotate1
      else if code == 1 then rotate2
      else if code == 2 then rotate3
      else if code == 3 then extent
      else if code == 4 then wheels
      else if code == 5 then wheelrotatec
      else if code == 6 then wheelrotater
      else if code == 7 then wheelrotatel
      else if code == 8 then warnlight
      else 0.0
    }

    /** The wheel height `set_wheels` derives from rotate3 and the extent. */
    function WheelsAt(rot3: real, ext: real, tanDeg: real -> real): real
      reads this`geom
    {
      tanDeg(rot3) * (geom.wheelPos + ext)
    }

    /** rotate1..3 and the extent are back at the initial values and the warn light is off; the wheels are not looked at. */
    predicate AtInitial()
      reads this`rotate1, this`rotate2, this`rotate3, this`extent, this`warnlight
      reads this`initialRot1, this`initialRot2, this`initialRot3, this`initialExtent
    {
      rotate1 == initialRot1 && rotate2 == initialRot2 && rotate3 == initialRot3 && extent == initialExtent
      && warnlight == 0.0
    }

    /** The animation values are back at the initial ones and the warn light is off. */
    predicate IsReset(tanDeg: real -> real)
      reads this
    {
      rotate1 == initialRot1 && rotate2 == initialRot2 && rotate3 == initialRot3 && extent == initialExtent
      && wheels == WheelsAt(initialRot3, initialExtent, tanDeg) && warnlight == 0.0
    }

    /** `fill_library_values`. */
    method FillLibraryValues(id: int, lib: seq<Geometry>)
      requires LibOk(lib)
      modifies this`libraryId, this`geom
      ensures (libraryId, geom) == Filled(old(libraryId), old(geom), id, lib)
    {
      if libraryId != 0 {
        return;
      }
      if !Between(id as real, 1.0, MaxSam3LibJw as real) {
        return;
      }
      libraryId := id;
      geom := lib[id];
    }

    /** `reset`: the animation values go back to the initial ones, the warn light off. */
    method Reset(tanDeg: real -> real)
      modifies this`rotate1, this`rotate2, this`rotate3, this`extent, this`wheels, this`warnlight
      ensures IsReset(tanDeg)
    {
      rotate1 := initialRot1;
      rotate2 := initialRot2;
      rotate3 := initialRot3;
      extent := initialExtent;
      wheels := WheelsAt(rotate3, extent, tanDeg);
      warnlight := 0.0;
    }
  }

  // ---------------------------------------------------------------------
  // The accessor's context word
  // ---------------------------------------------------------------------

  /** 2^32: the shift of `(uint64_t)i << 32`. */
  const Two32: nat := 0x1_0000_0000

  /** 2^64: the range of `uint64_t`. */
  const Two64: nat := 0x1_0000_0000_0000_0000

  /**
   * `jw_init`: `(uint64_t)id << 32 | (uint64_t)code`.  The shift wraps at 64
   * bits; a code below 2^32 has no bit in common with the shifted id, so the
   * or is an addition.
   */
  function PackCtx(id: nat, code: nat): (ctx: nat)
    requires code < Two32
    ensures ctx < Two64
  {
    (id * Two32) % Two64 + code
  }

  /** `jw_anim_acc`: the library id is `ctx >> 32`. */
  function CtxId(ctx: nat): nat
  {
    ctx / Two32
  }

  /** `jw_anim_acc`: the dataref code is `ctx & 0xffffffff`. */
  function CtxCode(ctx: nat): (code: nat)
    ensures code < Two32
  {
    ctx % Two32
  }

  /** Packing and decoding are inverse for ids and codes that fit 32 bits, the library ids 0..27 and codes 0..8 among them. */
  lemma CtxRoundTrip(id: nat, code: nat)
    requires id < Two32 && code < Two32
    ensures CtxId(PackCtx(id, code)) == id
    ensures CtxCode(PackCtx(id, code)) == code
  {
    assert id * Two32 < Two64;
  }

  /** Distinct (id, code) pairs get distinct context words, so every registered dataref is told apart. */
  lemma CtxInjective(id1: nat, code1: nat, id2: nat, code2: nat)
    requires id1 < Two32 && code1 < Two32
    requires id2 < Two32 && code2 < Two32
    requires PackCtx(id1, code1) == PackCtx(id2, code2)
    ensures id1 == id2 && code1 == code2
  {
    CtxRoundTrip(id1, code1);
    CtxRoundTrip(id2, code2);
  }

  // ---------------------------------------------------------------------
  // Zero-config jetway lookup
  // ---------------------------------------------------------------------

  /** A zero-config jetway matches a drawn object only on exact equality of x, z and y. */
  predicate AtObject(j: SamJw, ox: real, oz: real, oy: real)
    reads j`x, j`z, j`y
  {
    ox == j.x && oz == j.z && oy == j.y
  }

  /** The index of the first jetway of `jws` at the object, or -1. */
  function ZcFind(jws: seq<SamJw>, ox: real, oz: real, oy: real): (k: int)
    reads (set j | j in jws)`x, (set j | j in jws)`z, (set j | j in jws)`y
    ensures -1 <= k < |jws|
    ensures k >= 0 ==> AtObject(jws[k], ox, oz, oy)
    ensures forall i :: 0 <= i < |jws| && (k < 0 || i < k) ==> !AtObject(jws[i], ox, oz, oy)
  {
    if jws == [] then -1
    else if AtObject(jws[0], ox, oz, oy) then 0
    else
      var k := ZcFind(jws[1..], ox, oz, oy);
      if k < 0 then -1 else k + 1
  }

  /** How the walk over the sceneries' declared jetways ended. */
  datatype ScSearch =
    | ProbeFailed          // a terrain probe failed: the accessor returns 0.0
    | Matched(jw: SamJw)   // a declared jetway lies within 2.5 m of the object
    | NoMatch

  // ---------------------------------------------------------------------
  // The walk over the sceneries' declared jetways
  // ---------------------------------------------------------------------

  /** samjw.cpp: the largest x or z distance (m) between a sam.xml position and the drawn object. */
  const Sam2ObjMax: real := 2.5

  /** samjw.cpp: the largest heading difference (degrees) between a sam.xml jetway and the drawn object. */
  const Sam2ObjHdgMax: real := 5.0

  /**
   * The terrain as the two probes of `jw_anim_acc` see it in the current
   * frame: the local x and z hit at a latitude and longitude, and no entry
   * where either of the two probes misses.
   */
  type Probe = map<(real, real), (real, real)>

  /** The terrain probe at a latitude and longitude: the local x and z it hits, or None on a miss. */
  function Probed(probe: Probe, lat: real, lon: real): (r: Option<(real, real)>)
    ensures r.Some? <==> (lat, lon) in probe
    ensures r.Some? ==> r.value == probe[(lat, lon)]
  {
    if (lat, lon) in probe then Some(probe[(lat, lon)]) else None
  }

  /** The plane lies in the jetway's box and the jetway points within 5 degrees of the object. */
  predicate InSight(j: SamJw, lat: real, lon: real, opsi: real)
    reads j`bbox, j`heading
  {
    InBbox(j.bbox, lat, lon) && Abs(RA(j.heading - opsi)) <= Sam2ObjHdgMax
  }

  /** The jetway's local position: the cached one of generation refGen, else what the probe finds. */
  function XmlPos(j: SamJw, refGen: nat, probe: Probe): Option<(real, real)>
    reads j`xmlRefGen, j`xmlX, j`xmlZ, j`latitude, j`longitude
  {
    if j.xmlRefGen < refGen then Probed(probe, j.latitude, j.longitude) else Some((j.xmlX, j.xmlZ))
  }

  /** What the walk sees of one jetway. */
  datatype JwView = JwView(inSight: bool, pos: Option<(real, real)>)

  function ViewOf(j: SamJw, lat: real, lon: real, opsi: real, refGen: nat, probe: Probe): JwView
    reads j`bbox, j`heading, j`xmlRefGen, j`xmlX, j`xmlZ, j`latitude, j`longitude
  {
    JwView(InSight(j, lat, lon, opsi), XmlPos(j, refGen, probe))
  }

  function Views(js: seq<SamJw>, lat: real, lon: real, opsi: real, refGen: nat, probe: Probe): (vs: seq<JwView>)
    reads (set j | j in js)`bbox, (set j | j in js)`heading, (set j | j in js)`xmlRefGen
    reads (set j | j in js)`xmlX, (set j | j in js)`xmlZ, (set j | j in js)`latitude, (set j | j in js)`longitude
    ensures |vs| == |js| && forall k {:trigger vs[k]} :: 0 <= k < |js| ==> vs[k] == ViewOf(js[k], lat, lon, opsi, refGen, probe)
  {
    if js == [] then []
    else Views(js[..|js| - 1], lat, lon, opsi, refGen, probe) + [ViewOf(js[|js| - 1], lat, lon, opsi, refGen, probe)]
  }

  /** Both local coordinates lie within 2.5 m of the object's. */
  predicate Near(p: (real, real), ox: real, oz: real)
  {
    Abs(ox - p.0) <= Sam2ObjMax && Abs(oz - p.1) <= Sam2ObjMax
  }

  /** The walk ends at a jetway in sight whose probe fails or that lies near the object. */
  predicate Stops(v: JwView, ox: real, oz: real)
  {
    v.inSight && (v.pos.None? || Near(v.pos.value, ox, oz))
  }

  /** The index of the first view the walk stops at, |vs| when there is none. */
  function FirstStop(vs: seq<JwView>, ox: real, oz: real): (k: nat)
    ensures k <= |vs|
    ensures k < |vs| ==> Stops(vs[k], ox, oz)
    ensures forall m :: 0 <= m < k ==> !Stops(vs[m], ox, oz)
  {
    if vs == [] then 0
    else if Stops(vs[0], ox, oz) then 0
    else 1 + FirstStop(vs[1..], ox, oz)
  }

  /** How the walk over the jetways js, seen as vs, ends. */
  function Outcome(js: seq<SamJw>, vs: seq<JwView>, ox: real, oz: real): (s: ScSearch)
    requires |vs| == |js|
    ensures s.NoMatch? <==> forall k :: 0 <= k < |vs| ==> !Stops(vs[k], ox, oz)
    ensures s.Matched? ==> s.jw in js
  {
    var k := FirstStop(vs, ox, oz);
    if k == |vs| then NoMatch
    else if vs[k].pos.None? then ProbeFailed
    else Matched(js[k])
  }

  /** A match is a jetway of the walk that is in sight and near the object. */
  lemma MatchIsNear(js: seq<SamJw>, vs: seq<JwView>, ox: real, oz: real)
    requires |vs| == |js|
    ensures Outcome(js, vs, ox, oz).Matched? ==>
      exists k :: 0 <= k < |js| && js[k] == Outcome(js, vs, ox, oz).jw && vs[k].inSight && vs[k].pos.Some? && Near(vs[k].pos.value, ox, oz)
  {
    var k := FirstStop(vs, ox, oz);
    if k < |vs| && vs[k].pos.Some? {
      assert js[k] == Outcome(js, vs, ox, oz).jw;
    }
  }

  /** The first jetway in sight near the object wins when no earlier jetway in sight made the probe fail. */
  lemma FirstMatchWins(js: seq<SamJw>, vs: seq<JwView>, ox: real, oz: real, k: nat)
    requires |vs| == |js| && k < |vs| && vs[k].inSight && vs[k].pos.Some? && Near(vs[k].pos.value, ox, oz)
    requires forall m :: 0 <= m < k ==> !Stops(vs[m], ox, oz)
    ensures Outcome(js, vs, ox, oz) == Matched(js[k])
  {
    var f := FirstStop(vs, ox, oz);
    assert !(f < k);
  }

  /** The first jetway in sight whose probe fails, before any match, makes the accessor give up. */
  lemma FirstFailureWins(js: seq<SamJw>, vs: seq<JwView>, ox: real, oz: real, k: nat)
    requires |vs| == |js| && k < |vs| && vs[k].inSight && vs[k].pos.None?
    requires forall m :: 0 <= m < k ==> !Stops(vs[m], ox, oz)
    ensures Outcome(js, vs, ox, oz) == ProbeFailed
  {
    var f := FirstStop(vs, ox, oz);
    assert !(f < k);
  }

  /** A jetway's probe cache: the generation it is valid for and the local x and z. */
  datatype Cache = Cache(gen: nat, x: real, z: real)

  function Caches(js: seq<SamJw>): (cs: seq<Cache>)
    reads (set j | j in js)`xmlRefGen, (set j | j in js)`xmlX, (set j | j in js)`xmlZ
    ensures |cs| == |js| && forall k {:trigger cs[k]} :: 0 <= k < |js| ==> cs[k] == Cache(js[k].xmlRefGen, js[k].xmlX, js[k].xmlZ)
  {
    if js == [] then []
    else Caches(js[..|js| - 1]) + [Cache(js[|js| - 1].xmlRefGen, js[|js| - 1].xmlX, js[|js| - 1].xmlZ)]
  }

  /**
   * Every cache entry of js either kept its value c0[k] or, being stale,
   * now holds for generation refGen what the probe finds at the jetway.
   */
  predicate Refreshed(c0: seq<Cache>, cs: seq<Cache>, js: seq<SamJw>, refGen: nat, probe: Probe)
    reads (set j | j in js)`latitude, (set j | j in js)`longitude
  {
    |c0| == |cs| == |js|
    && forall k {:trigger cs[k]} :: 0 <= k < |js| ==>
      cs[k] == c0[k] || (c0[k].gen < refGen && cs[k].gen == refGen && Probed(probe, js[k].latitude, js[k].longitude) == Some((cs[k].x, cs[k].z)))
  }

  /**
   * vs is how the walk sees the jetways of js when their caches hold c0: the
   * box and heading checks, and the cached position or, when stale, the
   * probe.  It reads only what the walk never changes.
   */
  predicate Sees(js: seq<SamJw>, vs: seq<JwView>, c0: seq<Cache>, lat: real, lon: real, opsi: real, refGen: nat, probe: Probe)
    reads (set j | j in js)`bbox, (set j | j in js)`heading, (set j | j in js)`latitude, (set j | j in js)`longitude
  {
    |vs| == |js| == |c0|
    && forall k {:trigger vs[k]} :: 0 <= k < |js| ==>
      vs[k] == JwView(InSight(js[k], lat, lon, opsi),
                      if c0[k].gen < refGen then Probed(probe, js[k].latitude, js[k].longitude) else Some((c0[k].x, c0[k].z)))
  }

  /** Where the walk first stops, the outcome is decided by that jetway's view. */
  lemma Decided(js: seq<SamJw>, vs: seq<JwView>, ox: real, oz: real, k: nat)
    requires |vs| == |js| && k < |vs|
    requires forall m :: 0 <= m < k ==> !Stops(vs[m], ox, oz)
    ensures Stops(vs[k], ox, oz) ==> Outcome(js, vs, ox, oz) == if vs[k].pos.None? then ProbeFailed else Matched(js[k])
  {
    if Stops(vs[k], ox, oz) {
      if vs[k].pos.None? {
        FirstFailureWins(js, vs, ox, oz, k);
      } else {
        FirstMatchWins(js, vs, ox, oz, k);
      }
    }
  }

  /** The jetways of the sceneries whose box holds the plane, in scenery order. */
  function Visited(boxes: seq<BBox>, scs: seq<seq<SamJw>>, lat: real, lon: real): seq<SamJw>
    requires |boxes| == |scs|
  {
    if scs == [] then []
    else
      var n := |scs| - 1;
      Visited(boxes[..n], scs[..n], lat, lon) + (if InBbox(boxes[n], lat, lon) then scs[n] else [])
  }

  /** Visiting one more scenery appends its jetways when its box holds the plane. */
  lemma VisitedStep(boxes: seq<BBox>, scs: seq<seq<SamJw>>, lat: real, lon: real, i: nat)
    requires |boxes| == |scs| && i < |scs|
    ensures Visited(boxes[..i + 1], scs[..i + 1], lat, lon)
      == Visited(boxes[..i], scs[..i], lat, lon) + (if InBbox(boxes[i], lat, lon) then scs[i] else [])
  {
    assert boxes[..i + 1][..i] == boxes[..i];
    assert scs[..i + 1][..i] == scs[..i];
  }

  /** Where the jetways of scenery i sit among all visited jetways. */
  lemma VisitedSlice(boxes: seq<BBox>, scs: seq<seq<SamJw>>, lat: real, lon: real, i: nat)
    requires |boxes| == |scs| && i < |scs|
    ensures var p := |Visited(boxes[..i], scs[..i], lat, lon)|;
      Visited(boxes[..i + 1], scs[..i + 1], lat, lon) <= Visited(boxes, scs, lat, lon)
      && |Visited(boxes[..i + 1], scs[..i + 1], lat, lon)| == p + (if InBbox(boxes[i], lat, lon) then |scs[i]| else 0)
      && (InBbox(boxes[i], lat, lon) ==> forall m :: 0 <= m < |scs[i]| ==> Visited(boxes, scs, lat, lon)[p + m] == scs[i][m])
  {
    VisitedStep(boxes, scs, lat, lon, i);
    VisitedPrefix(boxes, scs, lat, lon, i + 1);
    if InBbox(boxes[i], lat, lon) {
      InPrefix(Visited(boxes[..i], scs[..i], lat, lon), scs[i], Visited(boxes, scs, lat, lon));
    }
  }

  /** The part sc of a prefix a + sc of all sits at |a|.. in all. */
  lemma InPrefix<T>(a: seq<T>, sc: seq<T>, all: seq<T>)
    requires a + sc <= all
    ensures forall m :: 0 <= m < |sc| ==> all[|a| + m] == sc[m]
  {
    forall m | 0 <= m < |sc|
      ensures all[|a| + m] == sc[m]
    {
      assert all[|a| + m] == (a + sc)[|a| + m];
    }
  }

  /** What is visited of a prefix of the sceneries is a prefix of what is visited of all. */
  lemma {:induction false} VisitedPrefix(boxes: seq<BBox>, scs: seq<seq<SamJw>>, lat: real, lon: real, i: nat)
    requires |boxes| == |scs| && i <= |scs|
    ensures Visited(boxes[..i], scs[..i], lat, lon) <= Visited(boxes, scs, lat, lon)
    decreases |scs| - i
  {
    if i < |scs| {
      VisitedPrefix(boxes, scs, lat, lon, i + 1);
      VisitedStep(boxes, scs, lat, lon, i);
    } else {
      assert boxes[..i] == boxes && scs[..i] == scs;
    }
  }

  /** What `configure_zc_jw` reads from the simulator: the plane distance and height, the stand, two `rand()` values. */
  datatype ZcEnv = ZcEnv(planeDist: real, planeY: real, stand: Option<Stand>, rand1: nat, rand2: nat)

  /** An object farther than half of FAR_SKIP horizontally or 1000 m vertically is not configured. */
  predicate TooFar(env: ZcEnv, oy: real)
  {
    env.planeDist > 0.5 * FarSkip || (if oy - env.planeY >= 0.0 then oy - env.planeY else env.planeY - oy) > 1000.0
  }

  /** The randomised share of the stand angle a zero-config jetway starts at. */
  function Rot2Factor(rand: nat): (f: real)
    ensures 0.2 <= f <= 0.992
  {
    0.2 + 0.8 * (0.01 * ((rand % 100) as real))
  }

  /** The randomised initial rotate3 of a zero-config jetway. */
  function InitialRot3(rand: nat): (r: real)
    ensures -2.97 <= r <= 0.0
  {
    -3.0 * 0.01 * ((rand % 100) as real)
  }

  /** The angle that turns a jetway at heading psi so that its cabin points across the stand. */
  function StandDelta(s: Stand, psi: real): (d: real)
    ensures -180.0 < d <= 180.0
  {
    RA((s.hdgt + 90.0) - psi)
  }

  /** The initial rotate2: a share of the stand angle, or 5 without a stand. */
  function InitialRot2(stand: Option<Stand>, psi: real, rand: nat): real
  {
    match stand
    case None => 5.0
    case Some(s) => Rot2Factor(rand) * StandDelta(s, psi)
  }

  /** A share f in [0.2, 0.992] (the range of `Rot2Factor`) of an angle d in (-180, 180] lies between 0.2 d and 0.992 d, on the side of d. */
  lemma ShareBounds(f: real, d: real)
    requires 0.2 <= f <= 0.992 && -180.0 < d <= 180.0
    ensures d >= 0.0 ==> 0.2 * d <= f * d <= 0.992 * d
    ensures d < 0.0 ==> 0.992 * d <= f * d <= 0.2 * d
    ensures -180.0 < f * d < 180.0
  {
    if d > 0.0 {
      MulMono(0.2, f, d);
      MulMono(f, 0.992, d);
    } else if d < 0.0 {
      MulMono(0.2, f, -d);
      MulMono(f, 0.992, -d);
    }
  }

  /** The global state samjw.cpp shares: the reference frame, its generation and the zero-config table. */
  class JwWorld {
    var latRef: real
    var lonRef: real
    var refGen: nat
    var zcRefGen: nat
    var zcJws: seq<SamJw>

    /** The zero-config table never belongs to a later frame than the current one. */
    predicate Valid()
      reads this`zcRefGen, this`refGen
    {
      zcRefGen <= refGen
    }

    /** openSAM.cpp starts with an impossible reference and generation 1, so that every cache starts stale. */
    constructor ()
      ensures Valid() && zcJws == [] && refGen == 1 && zcRefGen == 0 && latRef == -1000.0 && lonRef == -1000.0
    {
      latRef, lonRef := -1000.0, -1000.0;
      refGen, zcRefGen := 1, 0;
      zcJws := [];
    }

    /**
     * `check_ref_frame_shift`: a new reference starts a new generation, and a
     * zero-config table from an older generation is emptied.
     */
    method CheckRefFrameShift(latR: real, lonR: real)
      requires Valid()
      modifies this`latRef, this`lonRef, this`refGen, this`zcRefGen, this`zcJws
      ensures Valid()
      ensures latRef == latR && lonRef == lonR
      ensures refGen == old(refGen) + (if latR != old(latRef) || lonR != old(lonRef) then 1 else 0)
      ensures zcRefGen == refGen
      ensures zcJws == if old(zcRefGen) < refGen then [] else old(zcJws)
    {
      if latR != latRef || lonR != lonRef {
        latRef := latR;
        lonRef := lonR;
        refGen := refGen + 1;
      }
      if zcRefGen < refGen {
        zcJws := [];
        zcRefGen := refGen;
      }
    }

    /** The loop over the zero-config table in `jw_anim_acc`. */
    method FindZc(ox: real, oz: real, oy: real) returns (k: int)
      ensures k == ZcFind(zcJws, ox, oz, oy)
    {
      var i := 0;
      while i < |zcJws|
        invariant 0 <= i <= |zcJws|
        invariant forall m :: 0 <= m < i ==> !AtObject(zcJws[m], ox, oz, oy)
      {
        if ox == zcJws[i].x && oz == zcJws[i].z && oy == zcJws[i].y {
          ZcFindFirst(zcJws, ox, oz, oy, i);
          return i;
        }
        i := i + 1;
      }
      ZcFindNone(zcJws, ox, oz, oy);
      return -1;
    }

    /**
     * The walk of `jw_anim_acc` over the declared jetways of the sceneries
     * whose box holds the plane at (lat, lon).  A jetway in sight whose
     * position is stale for this generation is probed and the result cached;
     * the walk ends at the first jetway in sight whose probe fails or that
     * lies within 2.5 m of the object.
     */
    method SearchSceneries(ghost js: seq<SamJw>, boxes: seq<BBox>, scs: seq<seq<SamJw>>, lat: real, lon: real,
                           ox: real, oz: real, opsi: real, probe: Probe) returns (res: ScSearch)
      requires |boxes| == |scs| && js == Visited(boxes, scs, lat, lon)
      modifies (set j | j in js)`xmlX, (set j | j in js)`xmlZ, (set j | j in js)`xmlRefGen
      ensures res == old(Outcome(js, Views(js, lat, lon, opsi, refGen, probe), ox, oz))
      ensures Refreshed(old(Caches(js)), Caches(js), js, refGen, probe)
      ensures res.Matched? ==> res.jw in js
      ensures res.Matched? ==> res.jw.xmlRefGen >= refGen && Near((res.jw.xmlX, res.jw.xmlZ), ox, oz)
    {
      ghost var vs := Views(js, lat, lon, opsi, refGen, probe);
      ghost var c0 := Caches(js);
      assert Sees(js, vs, c0, lat, lon, opsi, refGen, probe);
      for i := 0 to |scs|
        invariant Visited(boxes[..i], scs[..i], lat, lon) <= js
        invariant Refreshed(c0, Caches(js), js, refGen, probe)
        invariant forall q :: 0 <= q < |Visited(boxes[..i], scs[..i], lat, lon)| ==> !Stops(vs[q], ox, oz)
      {
        VisitedSlice(boxes, scs, lat, lon, i);
        if !InBbox(boxes[i], lat, lon) {
          continue;
        }
        ghost var p := |Visited(boxes[..i], scs[..i], lat, lon)|;
        var stop := WalkScenery(js, vs, c0, p, scs[i], lat, lon, ox, oz, opsi, probe);
        if stop.Some? {
          return stop.value;
        }
      }
      assert boxes[..|scs|] == boxes && scs[..|scs|] == scs;
      return NoMatch;
    }

    /** The inner loop of the walk: the jetways of one scenery, which sit at p.. in js. */
    method WalkScenery(ghost js: seq<SamJw>, ghost vs: seq<JwView>, ghost c0: seq<Cache>, ghost p: nat, sc: seq<SamJw>,
                       lat: real, lon: real, ox: real, oz: real, opsi: real, probe: Probe) returns (stop: Option<ScSearch>)
      requires p + |sc| <= |js| == |vs| && forall m :: 0 <= m < |sc| ==> js[p + m] == sc[m]
      requires Sees(js, vs, c0, lat, lon, opsi, refGen, probe) && Refreshed(c0, Caches(js), js, refGen, probe)
      requires forall q :: 0 <= q < p ==> !Stops(vs[q], ox, oz)
      modifies (set j | j in js)`xmlX, (set j | j in js)`xmlZ, (set j | j in js)`xmlRefGen
      ensures Refreshed(c0, Caches(js), js, refGen, probe)
      ensures stop.None? ==> forall q :: 0 <= q < p + |sc| ==> !Stops(vs[q], ox, oz)
      ensures stop.Some? ==> stop.value == Outcome(js, vs, ox, oz)
      ensures stop.Some? && stop.value.Matched? ==>
        stop.value.jw.xmlRefGen >= refGen && Near((stop.value.jw.xmlX, stop.value.jw.xmlZ), ox, oz)
    {
      for m := 0 to |sc|
        invariant Refreshed(c0, Caches(js), js, refGen, probe)
        invariant forall q :: 0 <= q < p + m ==> !Stops(vs[q], ox, oz)
      {
        Decided(js, vs, ox, oz, p + m);
        var s := Visit(sc[m], js, vs, c0, p + m, lat, lon, ox, oz, opsi, probe);
        if s.Some? {
          return s;
        }
      }
      return None;
    }

    /** One jetway of the walk: the box and heading checks, the probe on a stale position, the distance check. */
    method Visit(j: SamJw, ghost js: seq<SamJw>, ghost vs: seq<JwView>, ghost c0: seq<Cache>, ghost k: nat,
                 lat: real, lon: real, ox: real, oz: real, opsi: real, probe: Probe) returns (stop: Option<ScSearch>)
      requires k < |js| == |vs| && js[k] == j
      requires Sees(js, vs, c0, lat, lon, opsi, refGen, probe) && Refreshed(c0, Caches(js), js, refGen, probe)
      modifies j`xmlX, j`xmlZ, j`xmlRefGen
      ensures Refreshed(c0, Caches(js), js, refGen, probe)
      ensures stop.None? <==> !Stops(vs[k], ox, oz)
      ensures stop.Some? ==> stop.value == if vs[k].pos.None? then ProbeFailed else Matched(j)
      ensures stop.Some? && stop.value.Matched? ==> j.xmlRefGen >= refGen && Near((j.xmlX, j.xmlZ), ox, oz)
    {
      if lat < j.bbox.latMin || lat > j.bbox.latMax || RA(lon - j.bbox.lonMin) < 0.0 || RA(lon - j.bbox.lonMax) > 0.0 {
        return None;
      }
      if Abs(RA(j.heading - opsi)) > Sam2ObjHdgMax {
        return None;
      }
      assert Caches(js)[k] == Cache(j.xmlRefGen, j.xmlX, j.xmlZ);
      if j.xmlRefGen < refGen {
        var pos := Probed(probe, j.latitude, j.longitude);
        if pos.None? {
          return Some(ProbeFailed);
        }
        Record(j, js, c0, k, probe, pos.value.0, pos.value.1);
      }
      if Abs(ox - j.xmlX) <= Sam2ObjMax && Abs(oz - j.xmlZ) <= Sam2ObjMax {
        return Some(Matched(j));
      }
      return None;
    }

    /** Caching a probe result for a stale jetway keeps the cache invariant. */
    method Record(j: SamJw, ghost js: seq<SamJw>, ghost c0: seq<Cache>, ghost k: nat, probe: Probe, x: real, z: real)
      requires k < |js| && js[k] == j && j.xmlRefGen < refGen && Probed(probe, j.latitude, j.longitude) == Some((x, z))
      requires Refreshed(c0, Caches(js), js, refGen, probe)
      modifies j`xmlX, j`xmlZ, j`xmlRefGen
      ensures Refreshed(c0, Caches(js), js, refGen, probe)
      ensures j.xmlX == x && j.xmlZ == z && j.xmlRefGen == refGen
    {
      ghost var cs0 := Caches(js);
      j.xmlX, j.xmlZ, j.xmlRefGen := x, z, refGen;
      ghost var cs := Caches(js);
      forall m | 0 <= m < |js|
        ensures cs[m] == c0[m] || (c0[m].gen < refGen && cs[m].gen == refGen && Probed(probe, js[m].latitude, js[m].longitude) == Some((cs[m].x, cs[m].z)))
      {
        assert cs0[m] == c0[m] || (c0[m].gen < refGen && cs0[m].gen == refGen && Probed(probe, js[m].latitude, js[m].longitude) == Some((cs0[m].x, cs0[m].z)));
        if js[m] == j {
          assert cs[m] == Cache(refGen, x, z);
        } else {
          assert cs[m] == cs0[m];
        }
      }
    }

    /**
     * The lookup of `jw_anim_acc` within one frame: the walk over the
     * declared jetways, then the dataref of the jetway found.  The ghost
     * arguments name what the walk will find (s), the zero-config entry at
     * the object (k) and what the lookup reads before it changes anything:
     * the dataref (dr), the object generation (gen) and library values (fill)
     * of the jetway found.
     */
    method Lookup(boxes: seq<BBox>, scs: seq<seq<SamJw>>, lat: real, lon: real, ctx: nat,
                  ox: real, oz: real, oy: real, opsi: real, probe: Probe,
                  env: ZcEnv, lib: seq<Geometry>, tanDeg: real -> real,
                  ghost s: ScSearch, ghost zc: seq<SamJw>, ghost k: int, ghost dr: real, ghost gen: nat, ghost fill: (int, Geometry))
      returns (r: real)
      requires LibOk(lib) && |boxes| == |scs| && zc == zcJws
      requires var js := Visited(boxes, scs, lat, lon); s == Outcome(js, Views(js, lat, lon, opsi, refGen, probe), ox, oz)
      requires s.Matched? ==> dr == s.jw.DrValue(CtxCode(ctx)) && gen == s.jw.objRefGen && fill == (s.jw.libraryId, s.jw.geom)
      requires s.NoMatch? ==> k == ZcFind(zc, ox, oz, oy) && (k >= 0 ==> dr == zc[k].DrValue(CtxCode(ctx)))
      modifies this`zcJws, (set j | j in zcJws)`libraryId, (set j | j in zcJws)`geom
      modifies (set j | j in Visited(boxes, scs, lat, lon))`xmlX, (set j | j in Visited(boxes, scs, lat, lon))`xmlZ
      modifies (set j | j in Visited(boxes, scs, lat, lon))`xmlRefGen, (set j | j in Visited(boxes, scs, lat, lon))`objRefGen
      modifies (set j | j in Visited(boxes, scs, lat, lon))`x, (set j | j in Visited(boxes, scs, lat, lon))`z
      modifies (set j | j in Visited(boxes, scs, lat, lon))`y, (set j | j in Visited(boxes, scs, lat, lon))`psi
      modifies (set j | j in Visited(boxes, scs, lat, lon))`libraryId, (set j | j in Visited(boxes, scs, lat, lon))`geom
      ensures refGen == old(refGen) && zcRefGen == old(zcRefGen)
      ensures Answered(this, ctx, ox, oz, oy, opsi, env, lib, s, k, dr, gen, fill, zc, r)
    {
      ghost var js := Visited(boxes, scs, lat, lon);
      var code := CtxCode(ctx);
      var id := CtxId(ctx);
      var search := SearchSceneries(js, boxes, scs, lat, lon, ox, oz, opsi, probe);
      assert search == s;
      match search {
        case ProbeFailed =>
          r := 0.0;
        case Matched(j) =>
          assert dr == j.DrValue(code) && gen == j.objRefGen && fill == (j.libraryId, j.geom);
          r := MatchedAccess(j, code, id, ox, oz, oy, opsi, lib);
        case NoMatch =>
          assert k == ZcFind(zcJws, ox, oz, oy);
          assert k >= 0 ==> dr == zcJws[k].DrValue(code);
          r := ZcAccess(code, id, ox, oz, oy, opsi, env, lib, tanDeg);
      }
    }

    /**
     * `configure_zc_jw`: a library object near enough to the plane becomes a
     * fresh zero-config jetway, which is appended to the table.
     */
    method ConfigureZcJw(id: int, ox: real, oz: real, oy: real, opsi: real, env: ZcEnv,
                         lib: seq<Geometry>, tanDeg: real -> real) returns (jw: SamJw?)
      requires LibOk(lib)
      modifies this`zcJws
      ensures TooFar(env, oy) ==> jw == null && zcJws == old(zcJws)
      ensures !TooFar(env, oy) ==>
        jw != null && fresh(jw) && zcJws == old(zcJws) + [jw]
        && jw.ZcConfigured(refGen, id, ox, oz, oy, opsi, env, lib, tanDeg)
    {
      if TooFar(env, oy) {
        return null;
      }
      jw := new SamJw.ZeroConfig(refGen, id, ox, oz, oy, opsi, env, lib, tanDeg);
      zcJws := zcJws + [jw];
    }

    /**
     * A declared jetway found by the walk: its object position is taken once
     * per generation, then its dataref is read.
     */
    method MatchedAccess(j: SamJw, code: nat, id: nat, ox: real, oz: real, oy: real, opsi: real, lib: seq<Geometry>) returns (r: real)
      requires LibOk(lib)
      modifies j`objRefGen, j`x, j`z, j`y, j`psi, j`libraryId, j`geom
      ensures r == old(j.DrValue(code))
      ensures old(j.objRefGen) < refGen ==> j.x == ox && j.z == oz && j.y == oy && j.psi == opsi && j.objRefGen == refGen
      ensures code == 0 && id > 0 ==> (j.libraryId, j.geom) == Filled(old(j.libraryId), old(j.geom), id, lib)
    {
      if j.objRefGen < refGen {
        j.objRefGen := refGen;
        j.x, j.z, j.y, j.psi := ox, oz, oy, opsi;
      }
      r := ReadDr(j, code, id, lib);
    }

    /**
     * The zero-config part of `jw_anim_acc`: the first table entry at the
     * object, else a new entry for a library id 1..27, else 0.0.
     */
    method ZcAccess(code: nat, id: nat, ox: real, oz: real, oy: real, opsi: real, env: ZcEnv,
                    lib: seq<Geometry>, tanDeg: real -> real) returns (r: real)
      requires LibOk(lib)
      modifies this`zcJws, (set j | j in zcJws)`libraryId, (set j | j in zcJws)`geom
      ensures ZcAccessed(old(ZcFind(zcJws, ox, oz, oy)) >= 0, code, id, ox, oz, oy, env, old(zcJws), zcJws, r)
      ensures old(ZcFind(zcJws, ox, oz, oy)) >= 0 ==> r == old(zcJws[ZcFind(zcJws, ox, oz, oy)].DrValue(code))
    {
      var k := FindZc(ox, oz, oy);
      if k >= 0 {
        r := ReadDr(zcJws[k], code, id, lib);
        return;
      }
      if !Between(id as real, 1.0, MaxSam3LibJw as real) {
        return 0.0;
      }
      var c := ConfigureZcJw(id, ox, oz, oy, opsi, env, lib, tanDeg);
      if c == null {
        return 0.0;
      }
      r := ReadDr(c, code, id, lib);
    }
  }

  /**
   * What the lookup of `jw_anim_acc` returns and leaves behind, given what
   * the walk found (s), the zero-config entry at the object (k), the values
   * read before anything changed (the dataref dr, the object generation gen
   * and the library values fill of the jetway found) and the zero-config
   * table before (zc).  A failed probe reads 0.0; a declared jetway gives its
   * dataref and takes the object position once per generation; otherwise the
   * zero-config table answers.
   */
  ghost predicate Answered(w: JwWorld, ctx: nat, ox: real, oz: real, oy: real, opsi: real, env: ZcEnv, lib: seq<Geometry>,
                           s: ScSearch, k: int, dr: real, gen: nat, fill: (int, Geometry), zc: seq<SamJw>, r: real)
    requires LibOk(lib)
    reads w, (if s.Matched? then {s.jw} else {}), set j | j in w.zcJws
  {
    (!(0 <= CtxCode(ctx) < NJwDr) ==> r == 0.0)
    && (s.ProbeFailed? ==> r == 0.0 && w.zcJws == zc)
    && (s.Matched? ==>
          r == dr && w.zcJws == zc
          && (gen < w.refGen ==> s.jw.x == ox && s.jw.z == oz && s.jw.y == oy && s.jw.psi == opsi && s.jw.objRefGen == w.refGen)
          && (CtxCode(ctx) == 0 && CtxId(ctx) > 0 ==> (s.jw.libraryId, s.jw.geom) == Filled(fill.0, fill.1, CtxId(ctx), lib)))
    && (s.NoMatch? ==>
          ZcAccessed(k >= 0, CtxCode(ctx), CtxId(ctx), ox, oz, oy, env, zc, w.zcJws, r) && (k >= 0 ==> r == dr))
  }

  /**
   * What the zero-config lookup leaves behind: the table unchanged when an
   * entry matched; otherwise a new entry at the object and its value for a
   * library id 1..27 near enough, and 0.0 with the table unchanged for any
   * other object.
   */
  ghost predicate ZcAccessed(found: bool, code: nat, id: nat, ox: real, oz: real, oy: real, env: ZcEnv,
                             before: seq<SamJw>, after: seq<SamJw>, r: real)
    reads set j | j in after
  {
    if found then after == before
    else if 1 <= id <= MaxSam3LibJw && !TooFar(env, oy) then
      |after| == |before| + 1 && after[..|before|] == before
      && AtObject(after[|before|], ox, oz, oy) && r == after[|before|].DrValue(code)
    else
      r == 0.0 && after == before
  }

  /** The `switch` of `jw_anim_acc`: the value of the selected dataref, with the library fill on rotate1. */
  method ReadDr(jw: SamJw, code: int, id: int, lib: seq<Geometry>) returns (r: real)
    requires LibOk(lib)
    modifies jw`libraryId, jw`geom
    ensures r == jw.DrValue(code)
    ensures code == 0 && id > 0 ==> (jw.libraryId, jw.geom) == Filled(old(jw.libraryId), old(jw.geom), id, lib)
    ensures !(code == 0 && id > 0) ==> jw.libraryId == old(jw.libraryId) && jw.geom == old(jw.geom)
  {
    if code == 0 {
      if id > 0 {
        jw.FillLibraryValues(id, lib);
      }
      return jw.rotate1;
    } else if code == 1 {
      return jw.rotate2;
    } else if code == 2 {
      return jw.rotate3;
    } else if code == 3 {
      return jw.extent;
    } else if code == 4 {
      return jw.wheels;
    } else if code == 5 {
      return jw.wheelrotatec;
    } else if code == 6 {
      return jw.wheelrotater;
    } else if code == 7 {
      return jw.wheelrotatel;
    } else if code == 8 {
      return jw.warnlight;
    }
    return 0.0;
  }

  /** A jetway at index k of the table after the first k that do not match is the one `ZcFind` picks. */
  lemma ZcFindFirst(jws: seq<SamJw>, ox: real, oz: real, oy: real, k: int)
    requires 0 <= k < |jws| && AtObject(jws[k], ox, oz, oy)
    requires forall m :: 0 <= m < k ==> !AtObject(jws[m], ox, oz, oy)
    ensures ZcFind(jws, ox, oz, oy) == k
  {
  }

  /** A table where nothing matches gives -1. */
  lemma ZcFindNone(jws: seq<SamJw>, ox: real, oz: real, oy: real)
    requires forall m :: 0 <= m < |jws| ==> !AtObject(jws[m], ox, oz, oy)
    ensures ZcFind(jws, ox, oz, oy) == -1
  {
  }

  /**
   * `jw_anim_acc`: the frame check, the walk over the declared jetways of
   * the sceneries in sight of the plane at (lat, lon), then the lookup.  A
   * failed probe reads 0.0; a matched declared jetway gives its dataref;
   * otherwise the zero-config table of the (possibly new) frame is used.
   */
  method JwAnimAcc(w: JwWorld, boxes: seq<BBox>, scs: seq<seq<SamJw>>, lat: real, lon: real, latR: real, lonR: real,
                   ctx: nat, ox: real, oz: real, oy: real, opsi: real, probe: Probe,
                   env: ZcEnv, lib: seq<Geometry>, tanDeg: real -> real)
    returns (r: real, ghost s: ScSearch, ghost zc: seq<SamJw>, ghost k: int, ghost dr: real, ghost gen: nat, ghost fill: (int, Geometry))
    requires w.Valid() && LibOk(lib) && |boxes| == |scs|
    modifies w, w.zcJws, set j | j in Visited(boxes, scs, lat, lon)
    ensures w.Valid() && w.zcRefGen == w.refGen
    ensures w.refGen == old(w.refGen) + (if latR != old(w.latRef) || lonR != old(w.lonRef) then 1 else 0)
    ensures var js, g := Visited(boxes, scs, lat, lon), w.refGen; s == old(Outcome(js, Views(js, lat, lon, opsi, g, probe), ox, oz))
    ensures zc == (if old(w.zcRefGen) < w.refGen then [] else old(w.zcJws)) && k == old(ZcFind(zc, ox, oz, oy))
    ensures s.Matched? ==> dr == old(s.jw.DrValue(CtxCode(ctx))) && gen == old(s.jw.objRefGen) && fill == old((s.jw.libraryId, s.jw.geom))
    ensures s.NoMatch? && k >= 0 ==> dr == old(zc[k].DrValue(CtxCode(ctx)))
    ensures Answered(w, ctx, ox, oz, oy, opsi, env, lib, s, k, dr, gen, fill, zc, r)
  {
    s, zc, k, dr, gen, fill := EnterFrame(w, boxes, scs, lat, lon, latR, lonR, ctx, ox, oz, oy, opsi, probe);
    r := w.Lookup(boxes, scs, lat, lon, ctx, ox, oz, oy, opsi, probe, env, lib, tanDeg, s, zc, k, dr, gen, fill);
  }

  /**
   * The frame check that opens `jw_anim_acc`, together with what the lookup
   * after it will find: the walk's outcome s, the zero-config table zc of
   * the frame, the entry k at the object and the values dr, gen and fill read
   * from the jetway found.  None of them is touched by the frame check, so
   * each is the same before and after it.
   */
  method EnterFrame(w: JwWorld, boxes: seq<BBox>, scs: seq<seq<SamJw>>, lat: real, lon: real, latR: real, lonR: real,
                    ctx: nat, ox: real, oz: real, oy: real, opsi: real, probe: Probe)
    returns (ghost s: ScSearch, ghost zc: seq<SamJw>, ghost k: int, ghost dr: real, ghost gen: nat, ghost fill: (int, Geometry))
    requires w.Valid() && |boxes| == |scs|
    modifies w`latRef, w`lonRef, w`refGen, w`zcRefGen, w`zcJws
    ensures w.Valid() && w.zcRefGen == w.refGen
    ensures w.refGen == old(w.refGen) + (if latR != old(w.latRef) || lonR != old(w.lonRef) then 1 else 0)
    ensures var js, g := Visited(boxes, scs, lat, lon), w.refGen;
      s == old(Outcome(js, Views(js, lat, lon, opsi, g, probe), ox, oz)) && s == Outcome(js, Views(js, lat, lon, opsi, g, probe), ox, oz)
    ensures zc == (if old(w.zcRefGen) < w.refGen then [] else old(w.zcJws)) && zc == w.zcJws
    ensures k == old(ZcFind(zc, ox, oz, oy)) && k == ZcFind(zc, ox, oz, oy)
    ensures s.Matched? ==> dr == old(s.jw.DrValue(CtxCode(ctx))) && gen == old(s.jw.objRefGen) && fill == old((s.jw.libraryId, s.jw.geom))
    ensures s.Matched? ==> dr == s.jw.DrValue(CtxCode(ctx)) && gen == s.jw.objRefGen && fill == (s.jw.libraryId, s.jw.geom)
    ensures s.NoMatch? && k >= 0 ==> dr == old(zc[k].DrValue(CtxCode(ctx))) && dr == zc[k].DrValue(CtxCode(ctx))
  {
    ghost var js := Visited(boxes, scs, lat, lon);
    ghost var g := w.refGen + (if latR != w.latRef || lonR != w.lonRef then 1 else 0);
    s := Outcome(js, Views(js, lat, lon, opsi, g, probe), ox, oz);
    zc := if w.zcRefGen < g then [] else w.zcJws;
    ghost var code := CtxCode(ctx);
    k := ZcFind(zc, ox, oz, oy);
    dr := if s.Matched? then s.jw.DrValue(code) else if k >= 0 then zc[k].DrValue(code) else 0.0;
    gen := if s.Matched? then s.jw.objRefGen else 0;
    fill := if s.Matched? then (s.jw.libraryId, s.jw.geom) else (0, ZeroGeometry);
    w.CheckRefFrameShift(latR, lonR);
    assert w.refGen == g;
    ShiftKeeps(Keep(js, zc, lat, lon, opsi, g, probe, ox, oz, oy, code));
  }

  datatype Keep = Keep(js: seq<SamJw>, zc: seq<SamJw>, lat: real, lon: real, opsi: real, g: nat, probe: Probe,
                       ox: real, oz: real, oy: real, code: int)

  /** A step that leaves the jetways of js and zc untouched changes neither the walk nor the zero-config lookup. */
  twostate lemma ShiftKeeps(q: Keep)
    requires unchanged(set j | j in q.js + q.zc)
    ensures old(Outcome(q.js, Views(q.js, q.lat, q.lon, q.opsi, q.g, q.probe), q.ox, q.oz)) == Outcome(q.js, Views(q.js, q.lat, q.lon, q.opsi, q.g, q.probe), q.ox, q.oz)
    ensures old(ZcFind(q.zc, q.ox, q.oz, q.oy)) == ZcFind(q.zc, q.ox, q.oz, q.oy)
    ensures forall j :: j in q.js || j in q.zc ==> old(j.DrValue(q.code)) == j.DrValue(q.code)
  {
  }

  /** `reset_all`: every declared jetway and every zero-config jetway is reset. */
  method ResetAll(w: JwWorld, scJws: seq<SamJw>, tanDeg: real -> real)
    modifies (set j | j in scJws + w.zcJws)`rotate1, (set j | j in scJws + w.zcJws)`rotate2
    modifies (set j | j in scJws + w.zcJws)`rotate3, (set j | j in scJws + w.zcJws)`extent
    modifies (set j | j in scJws + w.zcJws)`wheels, (set j | j in scJws + w.zcJws)`warnlight
    ensures forall j :: j in scJws + w.zcJws ==> j.IsReset(tanDeg)
  {
    var all := scJws + w.zcJws;
    for i := 0 to |all|
      invariant forall m :: 0 <= m < i ==> all[m].IsReset(tanDeg)
    {
      all[i].Reset(tanDeg);
    }
  }
}
