/**
 * mpplane_xpilot.cpp: the xPilot adapter.  Each run reads the TCAS target
 * datarefs (mode S id, on-ground flag, lights, position, throttle) and two
 * byte areas of 8-byte slots holding each target's flight id and ICAO
 * type, keeps the targets on the ground within 2 km of the user's plane,
 * updates the known ones, creates the new ones, and forgets the planes
 * this run did not see.  An xPilot plane has no parking brake dataref:
 * the brake is taken as set once the plane has not moved for 10 s.
 *
 * Dataref reads, the clock `now`, the user's position and
 * `csl_door_info_map` are parameters.
 */
module MpXPilot {
  import opened Wrappers
  import opened Strings
  import opened MpAdapters
  import OpenSamH
  import Seasons
  import P = MyPlanes

  /** Targets further away than this are ignored (m). */
  const KMaxDist: real := 2000.0
  /** A move of more than this along x or z releases the emulated parking brake (m). */
  const KMoveTolerance: real := 0.5
  /** Seconds without a move after which the parking brake counts as set. */
  const KParkDelay: real := 10.0
  /** Throttle above which the engines count as running. */
  const KThrottleIdle: real := 0.1
  /** `update`'s delay to the next run (s). */
  const KUpdateDelay: real := 2.0

  // ---------------------------------------------------------------------
  // Planes

  /**
   * `MpPlane_xPilot`: the `Plane` members an xPilot plane sets, with its
   * slot, its flight id and the anchor of the parking brake emulation (the
   * position and time of the last move).
   */
  datatype XPilotPlane = XPilotPlane(slot: int, flightId: string, icao: string, state: P.PlaneState,
                                     onGround: bool, beaconOn: bool, enginesOn: bool, parkbrakeSet: bool,
                                     doors: seq<Seasons.DoorInfo>, x: real, y: real, z: real, psi: real,
                                     lastMoveTs: real, xLastMove: real, zLastMove: real)

  /**
   * The constructor: door 1 of the ICAO type must be in
   * `csl_door_info_map`, otherwise the plane is DISABLED without doors.
   * The plane is on the ground and its anchor is the origin at time 0.
   */
  function NewPlane(slot: int, flightId: string, icao: string, doorMap: map<string, Seasons.DoorInfo>)
    : (p: XPilotPlane)
    ensures p.slot == slot && p.flightId == flightId && p.icao == icao && p.onGround
    ensures p.state == P.Disabled <==> DoorKey(icao, 1) !in doorMap
    ensures p.state != P.Disabled ==> p.state == P.Idle && p.doors == [doorMap[DoorKey(icao, 1)]]
    ensures p.state == P.Disabled ==> p.doors == []
    ensures !p.beaconOn && !p.enginesOn && !p.parkbrakeSet
    ensures p.lastMoveTs == 0.0 && p.xLastMove == 0.0 && p.zLastMove == 0.0
  {
    var base := XPilotPlane(slot, flightId, icao, P.Disabled, true, false, false, false, [],
                            0.0, 0.0, 0.0, 0.0, 0.0, 0.0, 0.0);
    var key := DoorKey(icao, 1);
    if key in doorMap then base.(state := P.Idle, doors := [doorMap[key]]) else base
  }

  /** What one run reports about a target, and the time of the run. */
  datatype Obs = Obs(x: real, y: real, z: real, psi: real, throttle: real, lights: int, now: real)

  /** The report is more than 0.5 m away from the anchor along x or along z. */
  predicate Moves(p: XPilotPlane, o: Obs)
  {
    OpenSamH.Abs(o.x - p.xLastMove) > KMoveTolerance || OpenSamH.Abs(o.z - p.zLastMove) > KMoveTolerance
  }

  /**
   * `update`: a DISABLED plane ignores it.  Otherwise the position is taken
   * over, the engines run when the throttle is above 0.1, the beacon is bit
   * 0 of the lights, a move re-anchors the plane at the new position and
   * time, and the parking brake is set when the anchor is more than 10 s
   * old.
   */
  function UpdatePlane(p: XPilotPlane, o: Obs): (r: XPilotPlane)
    ensures r.slot == p.slot && r.flightId == p.flightId && r.icao == p.icao && r.state == p.state
    ensures r.doors == p.doors && r.onGround == p.onGround
  {
    if p.state == P.Disabled then p
    else
      var moved := Moves(p, o);
      var ts := if moved then o.now else p.lastMoveTs;
      p.(x := o.x, y := o.y, z := o.z, psi := o.psi, enginesOn := o.throttle > KThrottleIdle,
         xLastMove := if moved then o.x else p.xLastMove, zLastMove := if moved then o.z else p.zLastMove,
         lastMoveTs := ts, beaconOn := o.lights % 2 == 1, parkbrakeSet := o.now - ts > KParkDelay)
  }

  /**
   * One update as the plane reports it: the position, engines and beacon
   * of the report; a move releases the brake and anchors the plane at the
   * report; without a move the anchor stays and the brake is set exactly
   * when the anchor is more than 10 s old.
   */
  lemma UpdateReports(p: XPilotPlane, o: Obs)
    requires p.state != P.Disabled
    ensures var r := UpdatePlane(p, o);
      && r.x == o.x && r.y == o.y && r.z == o.z && r.psi == o.psi
      && (r.enginesOn <==> o.throttle > KThrottleIdle)
      && (r.beaconOn <==> o.lights % 2 == 1)
      && (Moves(p, o) ==> !r.parkbrakeSet && r.lastMoveTs == o.now && r.xLastMove == o.x && r.zLastMove == o.z)
      && (!Moves(p, o) ==>
            && r.lastMoveTs == p.lastMoveTs && r.xLastMove == p.xLastMove && r.zLastMove == p.zLastMove
            && (r.parkbrakeSet <==> o.now - p.lastMoveTs > KParkDelay))
  {
  }

  /** A DISABLED plane stays exactly as it was. */
  lemma DisabledIgnoresUpdate(p: XPilotPlane, o: Obs)
    requires p.state == P.Disabled
    ensures UpdatePlane(p, o) == p
  {
  }

  /** The plane after a series of updates, the last one applied last. */
  function Replay(p: XPilotPlane, obs: seq<Obs>): XPilotPlane
    decreases |obs|
  {
    if obs == [] then p else UpdatePlane(Replay(p, obs[..|obs| - 1]), obs[|obs| - 1])
  }

  /** The reports come in order of time. */
  predicate InTimeOrder(obs: seq<Obs>)
  {
    forall j, k :: 0 <= j < k < |obs| ==> obs[j].now <= obs[k].now
  }

  /** Update k moved the plane, measured from the anchor the updates before it left. */
  predicate MovedAt(p: XPilotPlane, obs: seq<Obs>, k: nat)
    requires k < |obs|
  {
    Moves(Replay(p, obs[..k]), obs[k])
  }

  /** Updates never enable or disable a plane. */
  lemma {:induction false} ReplayKeepsState(p: XPilotPlane, obs: seq<Obs>)
    ensures Replay(p, obs).state == p.state
    decreases |obs|
  {
    if obs != [] {
      ReplayKeepsState(p, obs[..|obs| - 1]);
    }
  }

  /** With the reports in time order, the anchor is at least as recent as every move. */
  lemma {:induction false} AnchorAfterMoves(p: XPilotPlane, obs: seq<Obs>)
    requires p.state != P.Disabled && InTimeOrder(obs)
    ensures forall k :: 0 <= k < |obs| && MovedAt(p, obs, k) ==> Replay(p, obs).lastMoveTs >= obs[k].now
    decreases |obs|
  {
    if obs != [] {
      var n := |obs|;
      var init := obs[..n - 1];
      assert InTimeOrder(init);
      AnchorAfterMoves(p, init);
      ReplayKeepsState(p, init);
      var q := Replay(p, init);
      UpdateReports(q, obs[n - 1]);
      forall k | 0 <= k < n && MovedAt(p, obs, k)
        ensures Replay(p, obs).lastMoveTs >= obs[k].now
      {
        if k < n - 1 {
          assert init[..k] == obs[..k];
          assert MovedAt(p, init, k);
          assert obs[k].now <= obs[n - 1].now;
        } else {
          assert obs[..k] == init;
        }
      }
    }
  }

  /**
   * The emulated parking brake is set only when the plane has not moved
   * for more than 10 s: every update that moved it lies more than 10 s
   * before the last one.
   */
  lemma ParkbrakeMeansQuiet(p: XPilotPlane, obs: seq<Obs>)
    requires p.state != P.Disabled && InTimeOrder(obs) && obs != []
    requires Replay(p, obs).parkbrakeSet
    ensures forall k :: 0 <= k < |obs| && MovedAt(p, obs, k) ==> obs[|obs| - 1].now - obs[k].now > KParkDelay
  {
    var n := |obs|;
    AnchorAfterMoves(p, obs);
    ReplayKeepsState(p, obs[..n - 1]);
    UpdateReports(Replay(p, obs[..n - 1]), obs[n - 1]);
  }

  /**
   * A plane that never moves keeps its anchor, and its brake is then set
   * exactly when the last report is more than 10 s after the anchor.
   */
  lemma {:induction false} StillKeepsAnchor(p: XPilotPlane, obs: seq<Obs>)
    requires p.state != P.Disabled
    requires forall k :: 0 <= k < |obs| ==> !Moves(p, obs[k])
    ensures var r := Replay(p, obs);
      && r.lastMoveTs == p.lastMoveTs && r.xLastMove == p.xLastMove && r.zLastMove == p.zLastMove
      && (obs != [] ==> (r.parkbrakeSet <==> obs[|obs| - 1].now - p.lastMoveTs > KParkDelay))
    decreases |obs|
  {
    if obs != [] {
      var n := |obs|;
      var init := obs[..n - 1];
      StillKeepsAnchor(p, init);
      ReplayKeepsState(p, init);
      var q := Replay(p, init);
      assert !Moves(p, obs[n - 1]);
      assert !Moves(q, obs[n - 1]);
      UpdateReports(q, obs[n - 1]);
    }
  }

  // ---------------------------------------------------------------------
  // One run's feed

  /**
   * The dataref vectors one run reads, `n` entries each, and the two byte
   * areas of `n` slots of 8 bytes (flight id and ICAO type of each target).
   */
  datatype Feed = Feed(modeS: seq<int>, onGround: seq<int>, lights: seq<int>, xs: seq<real>, ys: seq<real>,
                       zs: seq<real>, psis: seq<real>, throttles: seq<real>,
                       icaoTypes: seq<char>, flightIds: seq<char>)

  /** Every vector holds `n` values and every area `n` slots. */
  predicate FeedOk(f: Feed, n: int)
  {
    0 <= n && |f.modeS| == n && |f.onGround| == n && |f.lights| == n && |f.xs| == n && |f.ys| == n
    && |f.zs| == n && |f.psis| == n && |f.throttles| == n
    && |f.icaoTypes| == 8 * n && |f.flightIds| == 8 * n
  }

  /**
   * The text of slot i of a byte area: its last byte is set to NUL ("play
   * it safe") and the string ends at the first NUL, so it has at most 7
   * characters, all taken from the slot.
   */
  function SlotText(area: seq<char>, i: nat): (s: string)
    requires 8 * i + 8 <= |area|
    ensures |s| < 8 && '\0' !in s
    ensures s <= area[8 * i..8 * i + 7]
  {
    var slot := area[8 * i..8 * i + 8];
    var t := ZeroTerm(slot);
    var s := CStr(t);
    assert t[7] == '\0';
    assert |s| < 8;
    assert t[..7] == slot[..7];
    s
  }

  /** The key of a plane in `mp_planes_`: flight id, '/', ICAO type. */
  function Key(flightId: string, icao: string): (k: string)
    ensures |k| == |flightId| + 1 + |icao|
  {
    flightId + "/" + icao
  }

  /** In the key of a flight id without '/', the first '/' follows the flight id. */
  lemma FirstSlash(flightId: string, icao: string)
    requires '/' !in flightId
    ensures Key(flightId, icao)[|flightId|] == '/'
    ensures forall m :: 0 <= m < |flightId| ==> Key(flightId, icao)[m] != '/'
  {
    var k := Key(flightId, icao);
    forall m | 0 <= m < |flightId| ensures k[m] != '/' {
      assert k[m] == flightId[m];
    }
  }

  /** A flight id without '/' is where the key's first '/' is; the rest is the ICAO type. */
  lemma KeyParts(f1: string, i1: string, f2: string, i2: string)
    requires '/' !in f1 && '/' !in f2 && Key(f1, i1) == Key(f2, i2)
    ensures f1 == f2 && i1 == i2
  {
    var k := Key(f1, i1);
    FirstSlash(f1, i1);
    FirstSlash(f2, i2);
    assert |f1| == |f2|;
    assert f1 == k[..|f1|] == f2;
    assert i1 == k[|f1| + 1..] == i2;
  }

  /** What a run needs from the rest of the plugin. */
  datatype World = World(myX: real, myZ: real, now: real, doorMap: map<string, Seasons.DoorInfo>)

  /** Slot i holds a target that is on the ground and within 2 km of the user's plane. */
  predicate Passes(f: Feed, n: int, i: nat, w: World)
    requires FeedOk(f, n) && i < n
  {
    f.modeS[i] != 0 && f.onGround[i] != 0 && Near(f.xs[i] - w.myX, f.zs[i] - w.myZ, KMaxDist)
  }

  function ObsAt(f: Feed, n: int, i: nat, w: World): Obs
    requires FeedOk(f, n) && i < n
  {
    Obs(f.xs[i], f.ys[i], f.zs[i], f.psis[i], f.throttles[i], f.lights[i], w.now)
  }

  /** What the scan uses of slot i: whether it passes, the two texts and the report. */
  datatype View = View(passes: bool, flightId: string, icao: string, obs: Obs)

  function ViewAt(f: Feed, n: int, i: nat, w: World): View
    requires FeedOk(f, n) && i < n
  {
    View(Passes(f, n, i, w), SlotText(f.flightIds, i), SlotText(f.icaoTypes, i), ObsAt(f, n, i, w))
  }

  /** Every slot's view. */
  function Views(f: Feed, n: int, w: World): (r: seq<View>)
    requires FeedOk(f, n)
    ensures |r| == n && forall i :: 0 <= i < n ==> r[i] == ViewAt(f, n, i, w)
  {
    seq(n, i requires 0 <= i < n => ViewAt(f, n, i, w))
  }

  function KeyOf(v: View): string
  {
    Key(v.flightId, v.icao)
  }

  // ---------------------------------------------------------------------
  // The scan, as a function of the feed

  /** The scan's variables: `dref_planes` and `mp_planes_`. */
  datatype Scan = Scan(seen: map<string, int>, planes: map<string, XPilotPlane>)

  /** Slot i: a known plane is updated, a new one is constructed and then updated. */
  function Visit(v: View, i: int, s: Scan, doorMap: map<string, Seasons.DoorInfo>): Scan
  {
    if !v.passes then s
    else
      var key := KeyOf(v);
      var p := if key in s.planes then s.planes[key] else NewPlane(i, v.flightId, v.icao, doorMap);
      Scan(s.seen[key := i], s.planes[key := UpdatePlane(p, v.obs)])
  }

  /** The scan's variables after slots 1 to j; slot 0 is the user's own plane. */
  function Upto(vs: seq<View>, j: nat, s0: Scan, doorMap: map<string, Seasons.DoorInfo>): Scan
    requires j < |vs| || j == 0
  {
    if j == 0 then s0 else Visit(vs[j], j, Upto(vs, j - 1, s0, doorMap), doorMap)
  }

  /** The number of slots the scan visits. */
  function Slots(n: int): nat
  {
    if n > 0 then n - 1 else 0
  }

  /** The plane map after `update`: the scan, then the sweep of every plane the scan did not see. */
  function Run(planes: map<string, XPilotPlane>, vs: seq<View>, doorMap: map<string, Seasons.DoorInfo>)
    : map<string, XPilotPlane>
  {
    var s := Upto(vs, Slots(|vs|), Scan(map[], planes), doorMap);
    Restrict(s.planes, s.seen.Keys)
  }

  /** The keys of the passing slots among 1 to j. */
  function ListedUpto(vs: seq<View>, j: nat): set<string>
    requires j < |vs| || j == 0
  {
    if j == 0 then {}
    else if vs[j].passes then ListedUpto(vs, j - 1) + {KeyOf(vs[j])}
    else ListedUpto(vs, j - 1)
  }

  /** A key is listed exactly when a passing slot among 1 to j carries it. */
  lemma ListedMembers(vs: seq<View>, j: nat)
    requires j < |vs| || j == 0
    ensures forall k :: k in ListedUpto(vs, j) <==> exists i :: 1 <= i <= j && vs[i].passes && KeyOf(vs[i]) == k
  {
    var m := 0;
    while m < j
      invariant m <= j
      invariant forall k :: k in ListedUpto(vs, m) <==> exists i :: 1 <= i <= m && vs[i].passes && KeyOf(vs[i]) == k
    {
      m := m + 1;
      forall k | k in ListedUpto(vs, m) && k !in ListedUpto(vs, m - 1)
        ensures exists i :: 1 <= i <= m && vs[i].passes && KeyOf(vs[i]) == k
      {
        assert vs[m].passes && KeyOf(vs[m]) == k;
      }
    }
  }

  /**
   * After slots 1 to j the scan has seen exactly the keys of the passing
   * slots among them, holds a plane for each of them, and has dropped none
   * it had.
   */
  lemma UptoSeen(vs: seq<View>, j: nat, planes: map<string, XPilotPlane>, doorMap: map<string, Seasons.DoorInfo>)
    requires j < |vs| || j == 0
    ensures var s := Upto(vs, j, Scan(map[], planes), doorMap);
      && s.seen.Keys == ListedUpto(vs, j)
      && s.planes.Keys == planes.Keys + s.seen.Keys
  {
    var k := 0;
    while k < j
      invariant k <= j
      invariant var s := Upto(vs, k, Scan(map[], planes), doorMap);
        && s.seen.Keys == ListedUpto(vs, k)
        && s.planes.Keys == planes.Keys + s.seen.Keys
    {
      VisitSeen(vs[k + 1], k + 1, Upto(vs, k, Scan(map[], planes), doorMap), planes.Keys, doorMap);
      k := k + 1;
    }
  }

  /** One slot adds its key to those seen when it passes, with a plane for it. */
  lemma VisitSeen(v: View, i: int, s: Scan, base: set<string>, doorMap: map<string, Seasons.DoorInfo>)
    requires s.planes.Keys == base + s.seen.Keys
    ensures var t := Visit(v, i, s, doorMap);
      && t.seen.Keys == s.seen.Keys + (if v.passes then {KeyOf(v)} else {})
      && t.planes.Keys == base + t.seen.Keys
  {
  }

  /**
   * `update` keeps exactly the planes of the passing slots, from slot 1
   * on: a plane stays if and only if a passing slot carries its key.
   */
  lemma RunKeepsListed(planes: map<string, XPilotPlane>, vs: seq<View>, doorMap: map<string, Seasons.DoorInfo>)
    ensures forall k :: k in Run(planes, vs, doorMap) <==>
      exists i :: 1 <= i < |vs| && vs[i].passes && KeyOf(vs[i]) == k
  {
    UptoSeen(vs, Slots(|vs|), planes, doorMap);
    ListedMembers(vs, Slots(|vs|));
  }

  /**
   * With the feed's views: a plane stays if and only if some slot from 1
   * on holds a target on the ground within 2 km whose flight id and ICAO
   * type make up its key.
   */
  lemma RunKeepsTargets(planes: map<string, XPilotPlane>, f: Feed, n: int, w: World)
    requires FeedOk(f, n)
    ensures forall k :: k in Run(planes, Views(f, n, w), w.doorMap) <==>
      exists i :: 1 <= i < n && Passes(f, n, i, w) && Key(SlotText(f.flightIds, i), SlotText(f.icaoTypes, i)) == k
  {
    var vs := Views(f, n, w);
    RunKeepsListed(planes, vs, w.doorMap);
    forall k | k in Run(planes, vs, w.doorMap)
      ensures exists i :: 1 <= i < n && Passes(f, n, i, w) && Key(SlotText(f.flightIds, i), SlotText(f.icaoTypes, i)) == k
    {
      var i :| 1 <= i < |vs| && vs[i].passes && KeyOf(vs[i]) == k;
      assert vs[i] == ViewAt(f, n, i, w);
    }
    forall k, i | 1 <= i < n && Passes(f, n, i, w) && Key(SlotText(f.flightIds, i), SlotText(f.icaoTypes, i)) == k
      ensures k in Run(planes, vs, w.doorMap)
    {
      assert vs[i] == ViewAt(f, n, i, w);
    }
  }

  /** The plane carries slot i's identity and the door rule of the constructor. */
  predicate Built(p: XPilotPlane, v: View, i: int, doorMap: map<string, Seasons.DoorInfo>)
  {
    p.slot == i && p.flightId == v.flightId && p.icao == v.icao
    && (p.state == P.Disabled <==> DoorKey(v.icao, 1) !in doorMap)
  }

  /**
   * A plane the scan creates was constructed for a passing slot with its
   * key: it carries that slot's number, flight id and ICAO type, and it is
   * DISABLED exactly when door 1 of the ICAO type is unknown.
   */
  lemma UptoNewPlanes(vs: seq<View>, j: nat, planes: map<string, XPilotPlane>, doorMap: map<string, Seasons.DoorInfo>)
    requires j < |vs| || j == 0
    ensures var s := Upto(vs, j, Scan(map[], planes), doorMap);
      forall k :: k in s.planes && k !in planes ==>
        exists i :: 1 <= i <= j && vs[i].passes && KeyOf(vs[i]) == k && Built(s.planes[k], vs[i], i, doorMap)
  {
    var m := 0;
    while m < j
      invariant m <= j
      invariant var s := Upto(vs, m, Scan(map[], planes), doorMap);
        forall k :: k in s.planes && k !in planes ==>
          exists i :: 1 <= i <= m && vs[i].passes && KeyOf(vs[i]) == k && Built(s.planes[k], vs[i], i, doorMap)
    {
      m := m + 1;
    }
  }

  // ---------------------------------------------------------------------
  // The adapter

  /** `MpAdapter_xPilot`: the number of TCAS slots, fixed at construction, and `mp_planes_`. */
  class XPilotAdapter {
    const nPlanes: int
    var planes: map<string, XPilotPlane>

    /** The slot count is the length of the mode S id vector when the adapter is built. */
    constructor(n: int)
      requires 0 <= n
      ensures nPlanes == n && planes == map[]
    {
      nPlanes := n;
      planes := map[];
    }

    /**
     * `update`: scan slots 1 to n - 1, sweep, and ask to be called again in
     * 2 s.
     */
    method Update(f: Feed, w: World) returns (delay: real)
      requires FeedOk(f, nPlanes)
      modifies this`planes
      ensures delay == KUpdateDelay
      ensures planes == Run(old(planes), Views(f, nPlanes, w), w.doorMap)
    {
      var seen := ScanSlots(f, w);
      planes := Sweep(planes, seen.Keys);
      delay := KUpdateDelay;
    }

    /** The loop of `update` over slots 1 to n - 1: the keys seen, and the planes updated or created. */
    method ScanSlots(f: Feed, w: World) returns (seen: map<string, int>)
      requires FeedOk(f, nPlanes)
      modifies this`planes
      ensures Scan(seen, planes) == Upto(Views(f, nPlanes, w), Slots(nPlanes), Scan(map[], old(planes)), w.doorMap)
    {
      ghost var planes0 := planes;
      ghost var vs := Views(f, nPlanes, w);
      seen := map[];
      var i := 1;
      while i < nPlanes
        invariant 1 <= i <= Slots(nPlanes) + 1
        invariant Scan(seen, planes) == Upto(vs, i - 1, Scan(map[], planes0), w.doorMap)
      {
        assert vs[i] == ViewAt(f, nPlanes, i, w);
        seen := VisitSlot(f, w, i, seen);
        i := i + 1;
      }
      assert i - 1 == Slots(nPlanes);
    }

    /** One slot of `update`'s loop. */
    method VisitSlot(f: Feed, w: World, i: int, seen0: map<string, int>) returns (seen: map<string, int>)
      requires FeedOk(f, nPlanes) && 0 <= i < nPlanes
      modifies this`planes
      ensures Scan(seen, planes) == Visit(ViewAt(f, nPlanes, i, w), i, Scan(seen0, old(planes)), w.doorMap)
    {
      ghost var v := ViewAt(f, nPlanes, i, w);
      ghost var s0 := Scan(seen0, old(planes));
      seen := seen0;
      if f.modeS[i] == 0 || f.onGround[i] == 0 || !Near(f.xs[i] - w.myX, f.zs[i] - w.myZ, KMaxDist) {
        assert !v.passes;
        return;
      }
      assert v.passes;
      var flightId := SlotText(f.flightIds, i);
      var icao := SlotText(f.icaoTypes, i);
      var key := Key(flightId, icao);
      assert key == KeyOf(v);
      seen := seen[key := i];
      var o := Obs(f.xs[i], f.ys[i], f.zs[i], f.psis[i], f.throttles[i], f.lights[i], w.now);
      assert o == v.obs;
      var p;
      if key in planes {
        p := planes[key];
      } else {
        p := NewPlane(i, flightId, icao, w.doorMap);
      }
      planes := planes[key := UpdatePlane(p, o)];
      assert Visit(v, i, s0, w.doorMap) == Scan(seen, planes);
    }
  }
}
