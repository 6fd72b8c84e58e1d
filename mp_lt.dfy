/**
 * mpadapter_lt.cpp: the LiveTraffic adapter.  Each run walks LiveTraffic's
 * aircraft map (in key order in the source; the model takes the entries in
 * any order given, repeated keys included), keeps the visible aircraft on
 * the ground that are parked or taxiing, carry a registration and are close
 * to the user's plane, updates the known ones, creates at most ten new
 * parked ones, and forgets the planes LiveTraffic no longer lists.
 *
 * The aircraft map (`getAcMap`), the clock `now`, `cosf` of the user's
 * latitude, the terrain probe, the two lookup maps, `LAT_2_M` and
 * `kMpMaxDist` are parameters.
 */
module MpLt {
  import opened Wrappers
  import opened MpAdapters
  import Seasons
  import P = MyPlanes

  /** New planes per run. */
  const KSpawnPerRun := 10
  /** `update`'s delay to the next run (s). */
  const KDefaultWait: real := 3.0

  // ---------------------------------------------------------------------
  // One run's feed

  /** `LTAPIAircraft::LTFlightPhase`, with the phases the adapter does not test folded together. */
  datatype Phase = FphParked | FphTaxi | FphOther

  /**
   * One entry of LiveTraffic's aircraft map: its key, the getters the
   * adapter reads, and the terrain probe's height under the aircraft's
   * local position, which the constructor of a new plane consults.
   */
  datatype LtAc = LtAc(key: string, registration: string, modelIcao: string, onGnd: bool, visible: bool,
                       phase: Phase, lat: real, lon: real, x: real, z: real, heading: real, beacon: bool,
                       groundY: real)

  /** The keys LiveTraffic lists in this run. */
  function FeedKeys(acs: seq<LtAc>): (r: set<string>)
    ensures forall k :: k in r <==> exists j :: 0 <= j < |acs| && acs[j].key == k
  {
    set j | 0 <= j < |acs| :: acs[j].key
  }

  /** The maps the constructor consults: `acf_generic_type_map` and `csl_door_info_map`. */
  datatype Lookup = Lookup(genericType: map<string, string>, doorMap: map<string, Seasons.DoorInfo>)

  /** What a run needs from the rest of the plugin; `myCosLat` is `cosf` of the user's latitude. */
  datatype World = World(myLat: real, myLon: real, myCosLat: real, lat2M: real, maxDist: real, now: real)

  // ---------------------------------------------------------------------
  // Planes

  /** `MpPlane_lt`: the `Plane` members a LiveTraffic plane sets, with its registration as flight id. */
  datatype LtPlane = LtPlane(flightId: string, icao: string, state: P.PlaneState, stateChangeTs: real,
                             beaconOn: bool, onGround: bool, parkbrakeSet: bool, doors: seq<Seasons.DoorInfo>,
                             x: real, y: real, z: real, psi: real)

  /**
   * The constructor: the model's ICAO code maps to a generic type when
   * `acf_generic_type_map` has one and is kept as it is otherwise; door 1
   * of that type must exist, otherwise the plane is DISABLED without doors
   * and without a position.  An enabled plane is IDLE at the reported
   * position with the terrain probe's height.
   */
  function NewPlane(flightId: string, icao: string, x: real, z: real, psi: real, groundY: real, lk: Lookup)
    : (p: LtPlane)
    ensures p.flightId == flightId && p.onGround && p.parkbrakeSet && !p.beaconOn
    ensures p.icao == if icao in lk.genericType then lk.genericType[icao] else icao
    ensures p.state == P.Disabled <==> DoorKey(p.icao, 1) !in lk.doorMap
    ensures p.state != P.Disabled ==>
      && p.state == P.Idle && DoorsOf(lk.doorMap, p.icao) == Some(p.doors)
      && p.x == x && p.z == z && p.y == groundY && p.psi == psi
    ensures p.state == P.Disabled ==> p.doors == []
    ensures |p.doors| <= 3
  {
    var generic := if icao in lk.genericType then lk.genericType[icao] else icao;
    var base := LtPlane(flightId, generic, P.Disabled, 0.0, false, true, true, [], 0.0, 0.0, 0.0, 0.0);
    match DoorsOf(lk.doorMap, generic)
    case None => base
    case Some(doors) => base.(state := P.Idle, doors := doors, x := x, z := z, y := groundY, psi := psi)
  }

  /** An aircraft code without a generic entry is looked up as it is: its own door 1 enables the plane. */
  lemma RawCodeFallback(flightId: string, icao: string, x: real, z: real, psi: real, groundY: real, lk: Lookup)
    requires icao !in lk.genericType && DoorKey(icao, 1) in lk.doorMap
    ensures var p := NewPlane(flightId, icao, x, z, psi, groundY, lk);
      p.state == P.Idle && p.icao == icao && p.doors[0] == lk.doorMap[DoorKey(icao, 1)]
  {
  }

  /**
   * `update(beacon)`: a DISABLED plane ignores it; otherwise the beacon is
   * taken over and a plane stuck in CANT_DOCK is retried.
   */
  function UpdatePlane(p: LtPlane, beacon: bool, now: real): (r: LtPlane)
    ensures r.state == Retried(p.state, beacon, now, p.stateChangeTs)
    ensures r.beaconOn == if p.state == P.Disabled then p.beaconOn else beacon
  {
    if p.state == P.Disabled then p
    else p.(beaconOn := beacon, state := Retried(p.state, beacon, now, p.stateChangeTs))
  }

  /** `update(beacon)` touches nothing but the state and the beacon. */
  lemma UpdateKeepsRest(p: LtPlane, beacon: bool, now: real)
    ensures UpdatePlane(p, beacon, now).(state := p.state, beaconOn := p.beaconOn) == p
  {
  }

  // ---------------------------------------------------------------------
  // The scan, as a function of the feed

  /** Aircraft i of the feed and the plane the constructor builds from it (used only when the scan creates it). */
  datatype Rec = Rec(ac: LtAc, built: LtPlane)

  function Built(ac: LtAc, lk: Lookup): LtPlane
  {
    NewPlane(ac.registration, ac.modelIcao, ac.x, ac.z, ac.heading, ac.groundY, lk)
  }

  function Records(acs: seq<LtAc>, lk: Lookup): (r: seq<Rec>)
    ensures |r| == |acs| && forall i :: 0 <= i < |r| ==> r[i] == Rec(acs[i], Built(acs[i], lk))
  {
    seq(|acs|, i requires 0 <= i < |acs| => Rec(acs[i], Built(acs[i], lk)))
  }

  /** The scan's variables: `mp_planes_`, `spawn_remain`, and whether it broke off. */
  datatype Scan = Scan(planes: map<string, LtPlane>, spawnRemain: int, stopped: bool)

  /**
   * The filter: visible, on the ground, parked or taxiing, with a
   * registration (without one it is likely a ground vehicle), and within
   * `kMpMaxDist` of the user's plane, the degrees of longitude shortened
   * by the cosine of the user's latitude and both scaled by `LAT_2_M`
   * (positive in the source; the model does not rely on its sign).
   */
  predicate Passes(ac: LtAc, w: World)
  {
    ac.onGnd && ac.visible && (ac.phase == FphParked || ac.phase == FphTaxi) && |ac.registration| > 0
    && Near((ac.lon - w.myLon) * w.myCosLat * w.lat2M, (ac.lat - w.myLat) * w.lat2M, w.maxDist)
  }

  /** One aircraft of the scan. */
  function Visit(r: Rec, s: Scan, w: World): Scan
  {
    if !Passes(r.ac, w) then s
    else if r.ac.key in s.planes then
      s.(planes := s.planes[r.ac.key := UpdatePlane(s.planes[r.ac.key], r.ac.beacon, w.now)])
    else if r.ac.phase != FphParked then s
    else if s.spawnRemain - 1 < 0 then s.(spawnRemain := s.spawnRemain - 1, stopped := true)
    else s.(spawnRemain := s.spawnRemain - 1, planes := s.planes[r.ac.key := r.built])
  }

  /** The scan's variables after the first i aircraft; once it broke off nothing changes. */
  function Upto(recs: seq<Rec>, i: nat, s0: Scan, w: World): Scan
    requires i <= |recs|
  {
    if i == 0 then s0
    else
      var s := Upto(recs, i - 1, s0, w);
      if s.stopped then s else Visit(recs[i - 1], s, w)
  }

  /** The scan's variables before the first aircraft. */
  function Start(planes: map<string, LtPlane>): Scan
  {
    Scan(planes, KSpawnPerRun, false)
  }

  /** The plane map after `update`: the scan, then the sweep of every plane LiveTraffic no longer lists. */
  function Run(planes: map<string, LtPlane>, acs: seq<LtAc>, lk: Lookup, w: World): map<string, LtPlane>
  {
    var recs := Records(acs, lk);
    Restrict(Upto(recs, |recs|, Start(planes), w).planes, FeedKeys(acs))
  }

  /**
   * Where the scan's planes come from: it never drops a plane, and each
   * plane it created belongs to a parked aircraft that passed the filter.
   */
  lemma UptoOrigins(recs: seq<Rec>, i: nat, planes: map<string, LtPlane>, w: World)
    requires i <= |recs|
    ensures Origins(recs, Upto(recs, i, Start(planes), w), planes, i, w)
  {
    var k := 0;
    while k < i
      invariant k <= i && Origins(recs, Upto(recs, k, Start(planes), w), planes, k, w)
    {
      var s := Upto(recs, k, Start(planes), w);
      assert Origins(recs, s, planes, k + 1, w);
      k := k + 1;
    }
  }

  /** The known planes are all there and each new one belongs to a parked aircraft among the first i that passed. */
  predicate Origins(recs: seq<Rec>, s: Scan, planes: map<string, LtPlane>, i: nat, w: World)
    requires i <= |recs|
  {
    && planes.Keys <= s.planes.Keys
    && forall k :: k in s.planes && k !in planes ==>
         exists j :: 0 <= j < i && recs[j].ac.key == k && Passes(recs[j].ac, w) && recs[j].ac.phase == FphParked
  }

  /** The known planes are kept and the new ones and the remaining budget add up to ten. */
  predicate Budgeted(s: Scan, base: set<string>)
  {
    base <= s.planes.Keys && |s.planes.Keys - base| + Max0(s.spawnRemain) == KSpawnPerRun
  }

  /** The scan creates one plane per unit of spawn budget it spends, so at most ten. */
  lemma UptoBudget(recs: seq<Rec>, i: nat, planes: map<string, LtPlane>, w: World)
    requires i <= |recs|
    ensures Budgeted(Upto(recs, i, Start(planes), w), planes.Keys)
  {
    assert Start(planes).planes.Keys - planes.Keys == {};
    var k := 0;
    while k < i
      invariant k <= i && Budgeted(Upto(recs, k, Start(planes), w), planes.Keys)
    {
      var s := Upto(recs, k, Start(planes), w);
      if !s.stopped {
        VisitBudget(recs[k], s, w, planes.Keys);
      }
      k := k + 1;
    }
  }

  /** One aircraft either spends a unit of spawn budget on a new plane or leaves both unchanged. */
  lemma VisitBudget(r: Rec, s: Scan, w: World, base: set<string>)
    requires Budgeted(s, base)
    ensures Budgeted(Visit(r, s, w), base)
  {
    var t := Visit(r, s, w);
    if !Passes(r.ac, w) || r.ac.key in s.planes || r.ac.phase != FphParked {
      assert t.planes.Keys == s.planes.Keys && t.spawnRemain == s.spawnRemain;
    } else if s.spawnRemain - 1 < 0 {
      assert t.planes == s.planes;
    } else {
      assert t.planes == s.planes[r.ac.key := r.built];
      AddKeyCount(s.planes, base, r.ac.key, r.built);
    }
  }

  lemma AddKeyCount<V>(m: map<string, V>, base: set<string>, k: string, v: V)
    requires base <= m.Keys && k !in m
    ensures |m[k := v].Keys - base| == |m.Keys - base| + 1
  {
    assert m[k := v].Keys - base == (m.Keys - base) + {k};
  }

  lemma SetCard<T>(a: set<T>, b: set<T>)
    requires a <= b
    ensures |a| <= |b|
  {
    assert b == a + (b - a);
  }

  /** `update` creates at most `kSpawnPerRun` planes, each for a parked aircraft that passed the filter. */
  lemma RunSpawnsAtMostTen(planes: map<string, LtPlane>, acs: seq<LtAc>, lk: Lookup, w: World)
    ensures var r := Run(planes, acs, lk, w);
      |r.Keys - planes.Keys| <= KSpawnPerRun
      && forall k :: k in r && k !in planes ==>
           exists j :: 0 <= j < |acs| && acs[j].key == k && Passes(acs[j], w) && acs[j].phase == FphParked
  {
    var recs := Records(acs, lk);
    UptoBudget(recs, |recs|, planes, w);
    UptoOrigins(recs, |recs|, planes, w);
    var s := Upto(recs, |recs|, Start(planes), w);
    var r := Run(planes, acs, lk, w);
    assert r.Keys - planes.Keys <= s.planes.Keys - planes.Keys;
    SetCard(r.Keys - planes.Keys, s.planes.Keys - planes.Keys);
  }

  /**
   * The sweep consults LiveTraffic's whole map, not the aircraft the scan
   * reached: a known plane survives the run exactly when LiveTraffic still
   * lists it, whether or not it passed the filter and even when the spawn
   * budget broke the scan off before it; and no plane survives that
   * LiveTraffic does not list.
   */
  lemma RunKeepsListed(planes: map<string, LtPlane>, acs: seq<LtAc>, lk: Lookup, w: World)
    ensures forall k :: k in planes ==> (k in Run(planes, acs, lk, w) <==> k in FeedKeys(acs))
    ensures forall k :: k in Run(planes, acs, lk, w) ==> k in FeedKeys(acs)
  {
    var recs := Records(acs, lk);
    UptoOrigins(recs, |recs|, planes, w);
  }

  /**
   * A known plane whose aircraft never passes the filter in this run (it
   * took off, became invisible, or lost its registration) is left as it
   * was, and kept while LiveTraffic lists it.
   */
  lemma RunKeepsFiltered(planes: map<string, LtPlane>, acs: seq<LtAc>, lk: Lookup, w: World, key: string)
    requires key in planes && key in FeedKeys(acs)
    requires forall j :: 0 <= j < |acs| && acs[j].key == key ==> !Passes(acs[j], w)
    ensures key in Run(planes, acs, lk, w) && Run(planes, acs, lk, w)[key] == planes[key]
  {
    var recs := Records(acs, lk);
    var k := 0;
    while k < |recs|
      invariant k <= |recs|
      invariant var s := Upto(recs, k, Start(planes), w); key in s.planes && s.planes[key] == planes[key]
    {
      var s := Upto(recs, k, Start(planes), w);
      if !s.stopped {
        VisitKeeps(recs[k], s, w, key);
      }
      k := k + 1;
    }
  }

  /** An aircraft leaves the plane of another key, or of its own key when it does not pass, as it was. */
  lemma VisitKeeps(r: Rec, s: Scan, w: World, key: string)
    requires key in s.planes && (r.ac.key == key ==> !Passes(r.ac, w))
    ensures key in Visit(r, s, w).planes && Visit(r, s, w).planes[key] == s.planes[key]
  {
  }

  /**
   * The first aircraft of the map, when it is known and passes the filter,
   * has its plane updated from its beacon, and the retry applies.
   */
  lemma RunUpdatesFirst(planes: map<string, LtPlane>, acs: seq<LtAc>, lk: Lookup, w: World)
    requires |acs| > 0 && acs[0].key in planes && Passes(acs[0], w)
    requires forall j :: 0 < j < |acs| ==> acs[j].key != acs[0].key
    ensures var key := acs[0].key;
      key in Run(planes, acs, lk, w)
      && Run(planes, acs, lk, w)[key] == UpdatePlane(planes[key], acs[0].beacon, w.now)
  {
    var recs := Records(acs, lk);
    var key := acs[0].key;
    var k := 1;
    while k < |recs|
      invariant 1 <= k <= |recs|
      invariant var s := Upto(recs, k, Start(planes), w);
        key in s.planes && s.planes[key] == UpdatePlane(planes[key], acs[0].beacon, w.now)
    {
      var s := Upto(recs, k, Start(planes), w);
      if !s.stopped {
        VisitKeeps(recs[k], s, w, key);
      }
      k := k + 1;
    }
  }

  /** Once the scan broke off, later aircraft change nothing. */
  lemma UptoStopped(recs: seq<Rec>, j: nat, i: nat, s0: Scan, w: World)
    requires j <= i <= |recs| && Upto(recs, j, s0, w).stopped
    ensures Upto(recs, i, s0, w) == Upto(recs, j, s0, w)
  {
    var k := j;
    while k < i
      invariant j <= k <= i && Upto(recs, k, s0, w) == Upto(recs, j, s0, w)
    {
      k := k + 1;
    }
  }

  // ---------------------------------------------------------------------
  // The adapter

  /** `MpAdapter_lt`'s `mp_planes_`. */
  class LtAdapter {
    var planes: map<string, LtPlane>

    constructor()
      ensures planes == map[]
    {
      planes := map[];
    }

    /**
     * One aircraft of `update`'s loop: the filter, then the update of a
     * known plane or the creation of a new parked one while the spawn
     * budget lasts; `stop` is the loop's `break` when the budget is spent.
     */
    method VisitOne(ac: LtAc, lk: Lookup, w: World, spawnRemain0: int) returns (spawnRemain: int, stop: bool)
      modifies this`planes
      ensures Scan(planes, spawnRemain, stop) == Visit(Rec(ac, Built(ac, lk)), Scan(old(planes), spawnRemain0, false), w)
    {
      spawnRemain, stop := spawnRemain0, false;
      if !(ac.onGnd && ac.visible) {
        return;
      }
      if ac.phase != FphParked && ac.phase != FphTaxi {
        return;
      }
      if |ac.registration| == 0 {
        return;
      }
      if !Near((ac.lon - w.myLon) * w.myCosLat * w.lat2M, (ac.lat - w.myLat) * w.lat2M, w.maxDist) {
        return;
      }
      if ac.key in planes {
        planes := planes[ac.key := UpdatePlane(planes[ac.key], ac.beacon, w.now)];
      } else if ac.phase == FphParked {
        spawnRemain := spawnRemain - 1;
        if spawnRemain < 0 {
          stop := true;
        } else {
          planes := planes[ac.key := NewPlane(ac.registration, ac.modelIcao, ac.x, ac.z, ac.heading, ac.groundY, lk)];
        }
      }
    }

    /**
     * `update`: walk LiveTraffic's map in the order given (breaking off at the
     * spawn budget), sweep the planes LiveTraffic no longer lists, and ask
     * to be called again in 3 s.
     */
    method Update(acs: seq<LtAc>, lk: Lookup, w: World) returns (delay: real)
      modifies this
      ensures delay == KDefaultWait
      ensures planes == Run(old(planes), acs, lk, w)
    {
      ScanMap(acs, lk, w);
      planes := Sweep(planes, FeedKeys(acs));
      delay := KDefaultWait;
    }

    /** `update`'s loop over LiveTraffic's map, which ends early at the spawn budget's `break`. */
    method ScanMap(acs: seq<LtAc>, lk: Lookup, w: World)
      modifies this`planes
      ensures planes == Upto(Records(acs, lk), |acs|, Start(old(planes)), w).planes
    {
      ghost var recs := Records(acs, lk);
      ghost var planes0 := planes;
      var spawnRemain := KSpawnPerRun;
      var i := 0;
      while i < |acs|
        invariant 0 <= i <= |acs|
        invariant Scan(planes, spawnRemain, false) == Upto(recs, i, Start(planes0), w)
      {
        assert recs[i] == Rec(acs[i], Built(acs[i], lk));
        var stop;
        spawnRemain, stop := VisitOne(acs[i], lk, w, spawnRemain);
        i := i + 1;
        if stop {
          UptoStopped(recs, i, |recs|, Start(planes0), w);
          return;
        }
      }
    }
  }
}
