/**
 * mpplane_tgxp.cpp: the Traffic Global adapter.  Each run reads the
 * plugin's dataref vectors (flight phase, traffic type, position) and two
 * byte areas holding the tail numbers and aircraft codes as NUL-separated
 * strings, keeps the parked or starting airliners close to the user's
 * plane, updates the known ones, creates at most ten new ones, and forgets
 * the planes this run did not see.
 *
 * Dataref reads, the clock `now`, the terrain probe, `sinf`/`cosf`, the
 * two lookup maps and `kMpMaxDist` are parameters.
 */
module MpTgxp {
  import opened Wrappers
  import opened Strings
  import opened MpAdapters
  import opened ByteAreas
  import Seasons
  import P = MyPlanes

  /** New planes per run. */
  const KSpawnPerRun := 10
  /** `FP_Parked` and `FP_Startup` of Traffic Global's `FlightPhase`. */
  const FpParked := 5
  const FpStartup := 6
  /** `PT_Airline` of `TrafficType`. */
  const PtAirline := 0
  /** The constructor moves the plane this far backwards along its heading (m). */
  const ZAdjust: real := 1.0
  /** `update`'s delay to the next run (s). */
  const KUpdateDelay: real := 2.0

  // ---------------------------------------------------------------------
  // One run's feed

  /**
   * The dataref vectors and byte areas one run reads; `n` is the vector
   * length the plugin reports.  `sinPsis`/`cosPsis` hold `sinf`/`cosf` of
   * each plane's heading and `groundYs` the terrain probe's height under
   * each plane, which the constructor of a new plane consults.
   */
  datatype Feed = Feed(n: int, phase: seq<int>, traffic: seq<int>, xs: seq<real>, ys: seq<real>, zs: seq<real>,
                       psis: seq<real>, acfTypes: seq<char>, flightIds: seq<char>,
                       sinPsis: seq<real>, cosPsis: seq<real>, groundYs: seq<real>)

  /** Every vector holds `n` values (the `assert` of `LOAD_DR`). */
  predicate FeedOk(f: Feed)
  {
    0 <= f.n && |f.phase| == f.n && |f.traffic| == f.n && |f.xs| == f.n && |f.ys| == f.n && |f.zs| == f.n
    && |f.psis| == f.n && |f.sinPsis| == f.n && |f.cosPsis| == f.n && |f.groundYs| == f.n
  }

  /**
   * Plane i of the feed: its tail number, aircraft code, phase, traffic
   * type and position, and the plane the constructor builds from them
   * (used only when the scan creates it).
   */
  datatype Rec = Rec(flightId: string, acfType: string, phase: int, traffic: int, x: real, y: real, z: real, psi: real,
                     built: TgxpPlane)

  /** The maps the constructor consults: `acf_generic_type_map` and `csl_door_info_map`. */
  datatype Lookup = Lookup(genericType: map<string, string>, doorMap: map<string, Seasons.DoorInfo>)

  function RecAt(f: Feed, lk: Lookup, i: nat, fid: string, acf: string): Rec
    requires FeedOk(f) && i < f.n
  {
    Rec(fid, acf, f.phase[i], f.traffic[i], f.xs[i], f.ys[i], f.zs[i], f.psis[i],
        NewPlane(i, fid, acf, f.xs[i], f.zs[i], f.psis[i], f.sinPsis[i], f.cosPsis[i], f.groundYs[i], lk))
  }

  /**
   * The planes the scan can reach: plane i takes the i-th string of each
   * terminated byte area, and the scan ends with the shorter area or the
   * vectors, whichever ends first.
   */
  function Records(f: Feed, lk: Lookup): (r: seq<Rec>)
    requires FeedOk(f)
    ensures var fs, ts := Split(ZeroTerm(f.flightIds)), Split(ZeroTerm(f.acfTypes));
      |r| <= f.n && |r| <= |fs| && |r| <= |ts| && (|r| == f.n || |r| == |fs| || |r| == |ts|)
      && forall i :: 0 <= i < |r| ==> r[i] == RecAt(f, lk, i, fs[i], ts[i])
  {
    var fs, ts := Split(ZeroTerm(f.flightIds)), Split(ZeroTerm(f.acfTypes));
    var m := if f.n <= |fs| && f.n <= |ts| then f.n else if |fs| <= |ts| then |fs| else |ts|;
    seq(m, i requires 0 <= i < m => RecAt(f, lk, i, fs[i], ts[i]))
  }

  // ---------------------------------------------------------------------
  // Planes

  /** What a run needs from the rest of the plugin. */
  datatype World = World(myX: real, myZ: real, maxDist: real, now: real)

  /** `MpPlane_tgxp`: the `Plane` members a Traffic Global plane sets, with its slot and tail number. */
  datatype TgxpPlane = TgxpPlane(slot: int, flightId: string, icao: string, state: P.PlaneState, stateChangeTs: real,
                                 beaconOn: bool, onGround: bool, parkbrakeSet: bool, doors: seq<Seasons.DoorInfo>,
                                 x: real, y: real, z: real, psi: real)

  /**
   * The constructor: the aircraft code maps to a generic ICAO type and door
   * 1 of that type must exist, otherwise the plane is DISABLED without
   * doors.  An enabled plane is IDLE, stands 1 m further back along its
   * heading than reported, and takes its height from the terrain probe at
   * the reported position.
   */
  function NewPlane(slot: int, flightId: string, acfType: string, x: real, z: real, psi: real,
                    sinPsi: real, cosPsi: real, groundY: real, lk: Lookup): (p: TgxpPlane)
    ensures p.slot == slot && p.flightId == flightId && p.onGround && p.parkbrakeSet && !p.beaconOn
    ensures p.state == P.Disabled <==> acfType !in lk.genericType || DoorKey(lk.genericType[acfType], 1) !in lk.doorMap
    ensures p.state != P.Disabled ==>
      && p.state == P.Idle && p.icao == lk.genericType[acfType]
      && DoorsOf(lk.doorMap, p.icao) == Some(p.doors)
      && p.x == x - sinPsi * ZAdjust && p.z == z + cosPsi * ZAdjust && p.y == groundY
      && p.psi == psi
    ensures p.state == P.Disabled ==> p.doors == []
    ensures |p.doors| <= 3
  {
    var base := TgxpPlane(slot, flightId, "", P.Disabled, 0.0, false, true, true, [], 0.0, 0.0, 0.0, 0.0);
    if acfType !in lk.genericType then base
    else
      var icao := lk.genericType[acfType];
      match DoorsOf(lk.doorMap, icao)
      case None => base.(icao := icao)
      case Some(doors) =>
        base.(icao := icao, state := P.Idle, doors := doors, x := x - sinPsi * ZAdjust,
              z := z + cosPsi * ZAdjust, y := groundY, psi := psi)
  }

  /**
   * `update(beacon)`: a DISABLED plane ignores it; otherwise the beacon is
   * taken over and a plane stuck in CANT_DOCK is retried.  Nothing else
   * changes.
   */
  function UpdatePlane(p: TgxpPlane, beacon: bool, now: real): (r: TgxpPlane)
    ensures r.state == Retried(p.state, beacon, now, p.stateChangeTs)
    ensures r.beaconOn == if p.state == P.Disabled then p.beaconOn else beacon
  {
    if p.state == P.Disabled then p
    else p.(beaconOn := beacon, state := Retried(p.state, beacon, now, p.stateChangeTs))
  }

  /** `update(beacon)` touches nothing but the state and the beacon. */
  lemma UpdateKeepsRest(p: TgxpPlane, beacon: bool, now: real)
    ensures UpdatePlane(p, beacon, now).(state := p.state, beaconOn := p.beaconOn) == p
  {
  }

  // ---------------------------------------------------------------------
  // The scan, as a function of the feed

  /** What `update` does once the spawn budget is spent: the source's `break`, or skipping the new plane. */
  datatype Policy = AsWritten | SkipWhenFull

  /** The scan's variables: `dref_planes`, `mp_planes_`, `spawn_remain`, and whether it broke off. */
  datatype Scan = Scan(seen: map<string, int>, planes: map<string, TgxpPlane>, spawnRemain: int, stopped: bool)

  /** Airline traffic, parked or starting up, within `kMpMaxDist` of the user's plane. */
  predicate Passes(r: Rec, w: World)
  {
    r.traffic == PtAirline && (r.phase == FpParked || r.phase == FpStartup)
    && Near(r.x - w.myX, r.z - w.myZ, w.maxDist)
  }

  /** One plane of the scan. */
  function Visit(r: Rec, i: int, s: Scan, w: World, pol: Policy): Scan
  {
    if !Passes(r, w) then s
    else
      var seen := s.seen[r.flightId := i];
      if r.flightId in s.planes then
        s.(seen := seen, planes := s.planes[r.flightId := UpdatePlane(s.planes[r.flightId], r.phase == FpStartup, w.now)])
      else if r.phase != FpParked then s.(seen := seen)
      else if s.spawnRemain - 1 < 0 then s.(seen := seen, spawnRemain := s.spawnRemain - 1, stopped := pol == AsWritten)
      else
        s.(seen := seen, spawnRemain := s.spawnRemain - 1,
           planes := s.planes[r.flightId := r.built])
  }

  /** The scan's variables after the first i planes; once it broke off nothing changes. */
  function Upto(recs: seq<Rec>, i: nat, s0: Scan, w: World, pol: Policy): Scan
    requires i <= |recs|
  {
    if i == 0 then s0
    else
      var s := Upto(recs, i - 1, s0, w, pol);
      if s.stopped then s else Visit(recs[i - 1], i - 1, s, w, pol)
  }

  /** The scan's variables before the first plane. */
  function Start(planes: map<string, TgxpPlane>): Scan
  {
    Scan(map[], planes, KSpawnPerRun, false)
  }

  /** The plane map after `update`: the scan, then the sweep of every plane the scan did not see. */
  function Run(planes: map<string, TgxpPlane>, recs: seq<Rec>, w: World, pol: Policy): map<string, TgxpPlane>
  {
    var s := Upto(recs, |recs|, Start(planes), w, pol);
    Restrict(s.planes, s.seen.Keys)
  }

  /**
   * Where the scan's keys come from: it never drops a plane, each key it saw
   * belongs to a plane that passed the filter, and each plane it created to
   * a parked one.
   */
  lemma {:induction false} UptoOrigins(recs: seq<Rec>, i: nat, planes: map<string, TgxpPlane>, w: World, pol: Policy)
    requires i <= |recs|
    ensures var s := Upto(recs, i, Start(planes), w, pol);
      && planes.Keys <= s.planes.Keys
      && (forall k :: k in s.seen ==> exists j :: 0 <= j < i && recs[j].flightId == k && Passes(recs[j], w))
      && (forall k :: k in s.planes && k !in planes ==>
            exists j :: 0 <= j < i && recs[j].flightId == k && Passes(recs[j], w) && recs[j].phase == FpParked)
  {
    if i > 0 {
      UptoOrigins(recs, i - 1, planes, w, pol);
    }
  }

  /** The scan creates one plane per unit of spawn budget it spends, so at most ten. */
  lemma UptoBudget(recs: seq<Rec>, i: nat, planes: map<string, TgxpPlane>, w: World, pol: Policy)
    requires i <= |recs|
    ensures Budgeted(Upto(recs, i, Start(planes), w, pol), planes.Keys)
  {
    StartBudgeted(planes);
    var k := 0;
    while k < i
      invariant k <= i && Budgeted(Upto(recs, k, Start(planes), w, pol), planes.Keys)
    {
      UptoBudgetStep(recs, k + 1, planes, w, pol);
      k := k + 1;
    }
  }

  lemma StartBudgeted(planes: map<string, TgxpPlane>)
    ensures Budgeted(Start(planes), planes.Keys)
  {
    assert Start(planes).planes.Keys - planes.Keys == {};
  }

  /** The known planes are kept and the new ones and the remaining budget add up to ten. */
  predicate Budgeted(s: Scan, base: set<string>)
  {
    base <= s.planes.Keys && |s.planes.Keys - base| + Max0(s.spawnRemain) == KSpawnPerRun
  }

  lemma UptoBudgetStep(recs: seq<Rec>, i: nat, planes: map<string, TgxpPlane>, w: World, pol: Policy)
    requires 0 < i <= |recs|
    requires Budgeted(Upto(recs, i - 1, Start(planes), w, pol), planes.Keys)
    ensures Budgeted(Upto(recs, i, Start(planes), w, pol), planes.Keys)
  {
    var s := Upto(recs, i - 1, Start(planes), w, pol);
    var t := Upto(recs, i, Start(planes), w, pol);
    if !s.stopped {
      assert t == Visit(recs[i - 1], i - 1, s, w, pol);
      VisitBudget(recs[i - 1], i - 1, s, t, w, pol, planes.Keys);
    } else {
      assert t == s;
    }
  }

  /** One plane either spends a unit of spawn budget on a new plane or leaves both unchanged. */
  lemma VisitBudget(r: Rec, i: int, s: Scan, t: Scan, w: World, pol: Policy, base: set<string>)
    requires t == Visit(r, i, s, w, pol) && Budgeted(s, base)
    ensures Budgeted(t, base)
  {
    if !Passes(r, w) || r.flightId in s.planes || r.phase != FpParked {
      assert t.planes.Keys == s.planes.Keys && t.spawnRemain == s.spawnRemain;
    } else if s.spawnRemain - 1 < 0 {
      assert t.planes == s.planes;
    } else {
      var p := r.built;
      assert t.planes == s.planes[r.flightId := p];
      AddKeyCount(s.planes, base, r.flightId, p);
    }
  }

  lemma AddKeyCount<V>(m: map<string, V>, base: set<string>, k: string, v: V)
    requires base <= m.Keys && k !in m
    ensures |m[k := v].Keys - base| == |m.Keys - base| + 1
  {
    assert m[k := v].Keys - base == (m.Keys - base) + {k};
  }

  /** Unless it broke off, the scan saw every plane that passed; skipping instead of breaking never breaks off. */
  lemma {:induction false} UptoSeesAll(recs: seq<Rec>, i: nat, planes: map<string, TgxpPlane>, w: World, pol: Policy)
    requires i <= |recs|
    ensures var s := Upto(recs, i, Start(planes), w, pol);
      && (!s.stopped ==> forall j :: 0 <= j < i && Passes(recs[j], w) ==> recs[j].flightId in s.seen)
      && (pol == SkipWhenFull ==> !s.stopped)
  {
    if i > 0 {
      UptoSeesAll(recs, i - 1, planes, w, pol);
    }
  }

  /** Once the scan broke off, later planes change nothing. */
  lemma {:induction false} UptoStopped(recs: seq<Rec>, j: nat, i: nat, s0: Scan, w: World, pol: Policy)
    requires j <= i <= |recs| && Upto(recs, j, s0, w, pol).stopped
    ensures Upto(recs, i, s0, w, pol) == Upto(recs, j, s0, w, pol)
    decreases i
  {
    if i > j {
      UptoStopped(recs, j, i - 1, s0, w, pol);
    }
  }

  /** `update` creates at most `kSpawnPerRun` planes, each for a parked plane of the feed. */
  lemma RunSpawnsAtMostTen(planes: map<string, TgxpPlane>, recs: seq<Rec>, w: World, pol: Policy)
    ensures var r := Run(planes, recs, w, pol);
      |r.Keys - planes.Keys| <= KSpawnPerRun
      && forall k :: k in r && k !in planes ==>
           exists j :: 0 <= j < |recs| && recs[j].flightId == k && recs[j].phase == FpParked
  {
    UptoBudget(recs, |recs|, planes, w, pol);
    UptoOrigins(recs, |recs|, planes, w, pol);
    assert Budgeted(Upto(recs, |recs|, Start(planes), w, pol), planes.Keys);
    var s := Upto(recs, |recs|, Start(planes), w, pol);
    var r := Run(planes, recs, w, pol);
    assert r.Keys - planes.Keys <= s.planes.Keys - planes.Keys;
    SetCard(r.Keys - planes.Keys, s.planes.Keys - planes.Keys);
  }

  lemma SetCard<T>(a: set<T>, b: set<T>)
    requires a <= b
    ensures |a| <= |b|
  {
    assert b == a + (b - a);
  }

  /** Every plane `update` keeps passed the filter in this run's feed. */
  lemma RunKeepsOnlySeen(planes: map<string, TgxpPlane>, recs: seq<Rec>, w: World, pol: Policy)
    ensures forall k :: k in Run(planes, recs, w, pol) ==>
      exists j :: 0 <= j < |recs| && recs[j].flightId == k && Passes(recs[j], w)
  {
    UptoOrigins(recs, |recs|, planes, w, pol);
  }

  /**
   * Eleven new parked airliners listed first put the scan over its spawn
   * budget at the eleventh: the first ten are created.
   */
  lemma {:induction false} FreshPrefix(recs: seq<Rec>, m: nat, planes: map<string, TgxpPlane>, w: World)
    requires m <= KSpawnPerRun + 1 && m <= |recs|
    requires forall j :: 0 <= j < m ==> Passes(recs[j], w) && recs[j].phase == FpParked && recs[j].flightId !in planes
    requires forall j, k :: 0 <= j < k < m ==> recs[j].flightId != recs[k].flightId
    ensures var s := Upto(recs, m, Start(planes), w, AsWritten);
      && (m <= KSpawnPerRun ==> !s.stopped && s.spawnRemain == KSpawnPerRun - m)
      && (m <= KSpawnPerRun ==> forall k :: k in s.planes ==> k in planes || exists j :: 0 <= j < m && recs[j].flightId == k)
      && (m == KSpawnPerRun + 1 ==> s.stopped)
  {
    if m > 0 {
      FreshPrefix(recs, m - 1, planes, w);
      var s := Upto(recs, m - 1, Start(planes), w, AsWritten);
      assert recs[m - 1].flightId !in s.planes;
    }
  }

  /**
   * The spawn budget's `break` ends the whole scan: when eleven new parked
   * airliners come first, a known plane listed after them is never marked
   * as seen, and the sweep deletes it although it is still parked there.
   */
  lemma SpawnLimitDropsListedPlane(planes: map<string, TgxpPlane>, recs: seq<Rec>, w: World)
    requires |recs| == KSpawnPerRun + 2
    requires forall j :: 0 <= j <= KSpawnPerRun ==>
      Passes(recs[j], w) && recs[j].phase == FpParked && recs[j].flightId !in planes
    requires forall j, k :: 0 <= j < k <= KSpawnPerRun ==> recs[j].flightId != recs[k].flightId
    requires Passes(recs[KSpawnPerRun + 1], w) && recs[KSpawnPerRun + 1].flightId in planes
    ensures recs[KSpawnPerRun + 1].flightId !in Run(planes, recs, w, AsWritten)
  {
    var known := recs[KSpawnPerRun + 1].flightId;
    FreshPrefix(recs, KSpawnPerRun + 1, planes, w);
    UptoStopped(recs, KSpawnPerRun + 1, |recs|, Start(planes), w, AsWritten);
    UptoOrigins(recs, KSpawnPerRun + 1, planes, w, AsWritten);
  }

  /**
   * With the new plane skipped instead of the scan broken off, every known
   * plane that is still listed and passes the filter survives the run, and
   * the spawn budget still holds.
   */
  lemma SkipKeepsListedPlanes(planes: map<string, TgxpPlane>, recs: seq<Rec>, w: World)
    ensures var r := Run(planes, recs, w, SkipWhenFull);
      |r.Keys - planes.Keys| <= KSpawnPerRun
      && forall j :: 0 <= j < |recs| && Passes(recs[j], w) && recs[j].flightId in planes ==>
           recs[j].flightId in r
  {
    UptoOrigins(recs, |recs|, planes, w, SkipWhenFull);
    UptoSeesAll(recs, |recs|, planes, w, SkipWhenFull);
    RunSpawnsAtMostTen(planes, recs, w, SkipWhenFull);
  }

  // ---------------------------------------------------------------------
  // The adapter

  /** `MpAdapter_tgxp`: the capacity of its value vectors and byte areas, and `mp_planes_`. */
  class TgxpAdapter {
    var vectorSize: int
    var byteAreaSize: int
    var planes: map<string, TgxpPlane>

    constructor()
      ensures vectorSize == 0 && byteAreaSize == 0 && planes == map[]
    {
      vectorSize := 0;
      byteAreaSize := 0;
      planes := map[];
    }

    /**
     * The value vectors grow to max(n + 50, 200) entries when n exceeds
     * them, and the byte areas to s + 512 bytes when s exceeds them, so
     * both hold a whole run.
     */
    method Reserve(n: int, s: int)
      modifies this`vectorSize, this`byteAreaSize
      ensures vectorSize >= n && byteAreaSize >= s
      ensures vectorSize == if n > old(vectorSize) then (if n + 50 > 200 then n + 50 else 200) else old(vectorSize)
      ensures byteAreaSize == if s > old(byteAreaSize) then s + 512 else old(byteAreaSize)
    {
      if n > vectorSize {
        vectorSize := if n + 50 > 200 then n + 50 else 200;
      }
      if s > byteAreaSize {
        byteAreaSize := s + 512;
      }
    }

    /**
     * One plane of `update`'s loop: the filter, then the update of a known
     * plane or the creation of a new parked one while the spawn budget
     * lasts; `stop` is the loop's `break` when the budget is spent.
     */
    method VisitOne(f: Feed, lk: Lookup, w: World, i: int, fid: string, acf: string,
                    seen0: map<string, int>, spawnRemain0: int)
      returns (seen: map<string, int>, spawnRemain: int, stop: bool)
      requires FeedOk(f) && 0 <= i < f.n
      modifies this`planes
      ensures Scan(seen, planes, spawnRemain, stop)
        == Visit(RecAt(f, lk, i, fid, acf), i, Scan(seen0, old(planes), spawnRemain0, false), w, AsWritten)
    {
      seen, spawnRemain, stop := seen0, spawnRemain0, false;
      if f.traffic[i] == PtAirline && (f.phase[i] == FpParked || f.phase[i] == FpStartup)
         && Near(f.xs[i] - w.myX, f.zs[i] - w.myZ, w.maxDist)
      {
        seen := seen[fid := i];
        if fid in planes {
          planes := planes[fid := UpdatePlane(planes[fid], f.phase[i] == FpStartup, w.now)];
        } else if f.phase[i] == FpParked {
          spawnRemain := spawnRemain - 1;
          if spawnRemain < 0 {
            stop := true;
          } else {
            planes := planes[fid := NewPlane(i, fid, acf, f.xs[i], f.zs[i], f.psis[i], f.sinPsis[i], f.cosPsis[i],
                                             f.groundYs[i], lk)];
          }
        }
      }
    }

    /**
     * `update`: reserve room, read and terminate both byte areas, scan the
     * planes (breaking off at the spawn budget), sweep, and ask to be
     * called again in 2 s.
     */
    method Update(f: Feed, lk: Lookup, w: World) returns (delay: real)
      requires FeedOk(f)
      modifies this
      ensures delay == KUpdateDelay
      ensures planes == Run(old(planes), Records(f, lk), w, AsWritten)
      ensures vectorSize >= f.n && byteAreaSize >= |f.acfTypes| && byteAreaSize >= |f.flightIds|
    {
      Reserve(f.n, if |f.acfTypes| >= |f.flightIds| then |f.acfTypes| else |f.flightIds|);
      // a byte area read copies at most the buffer's size
      var ta := ZeroTerm(f.acfTypes[..if |f.acfTypes| <= byteAreaSize then |f.acfTypes| else byteAreaSize]);
      var fa := ZeroTerm(f.flightIds[..if |f.flightIds| <= byteAreaSize then |f.flightIds| else byteAreaSize]);
      assert ta == ZeroTerm(f.acfTypes) && fa == ZeroTerm(f.flightIds);
      var seen, spawnRemain, stopped := ScanFeed(f, lk, w, fa, ta);
      planes := Sweep(planes, seen.Keys);
      delay := KUpdateDelay;
    }

    /**
     * `update`'s loop: walk both byte areas string by string alongside the
     * vectors, and stop at the end of the shorter one, at the end of the
     * vectors, or at the spawn budget's `break`.
     */
    method ScanFeed(f: Feed, lk: Lookup, w: World, fa: seq<char>, ta: seq<char>)
      returns (seen: map<string, int>, spawnRemain: int, ghost stopped: bool)
      requires FeedOk(f) && fa == ZeroTerm(f.flightIds) && ta == ZeroTerm(f.acfTypes)
      modifies this`planes
      ensures Scan(seen, planes, spawnRemain, stopped)
        == Upto(Records(f, lk), |Records(f, lk)|, Start(old(planes)), w, AsWritten)
    {
      ghost var recs := Records(f, lk);
      ghost var planes0 := planes;
      // the bytes not yet walked; their length is the source's `fLen`/`tLen`
      var fRest, tRest := fa, ta;
      WalkStart(fa);
      WalkStart(ta);
      seen, spawnRemain, stopped := map[], KSpawnPerRun, false;
      var i := 0;
      while i < f.n
        invariant 0 <= i <= f.n && i <= |recs|
        invariant WalkAt(fa, fRest, i) && WalkAt(ta, tRest, i)
        invariant Scan(seen, planes, spawnRemain, false) == Upto(recs, i, Start(planes0), w, AsWritten)
        invariant !stopped
      {
        if |fRest| <= 0 || |tRest| <= 0 {
          if fRest == [] {
            WalkEnd(fa, i);
          } else {
            WalkEnd(ta, i);
          }
          break;
        }
        var fid, acf;
        fid, fRest := NextString(fa, fRest, i);
        acf, tRest := NextString(ta, tRest, i);
        assert recs[i] == RecAt(f, lk, i, fid, acf);
        var stop;
        seen, spawnRemain, stop := VisitOne(f, lk, w, i, fid, acf, seen, spawnRemain);
        i := i + 1;
        if stop {
          stopped := true;
          assert Scan(seen, planes, spawnRemain, true) == Upto(recs, i, Start(planes0), w, AsWritten);
          UptoStopped(recs, i, |recs|, Start(planes0), w, AsWritten);
          return;
        }
      }
      assert i == |recs|;
    }
  }
}
