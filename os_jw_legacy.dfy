/**
 * os_jw.c: the older, C form of the plane's jetway logic.  One state
 * machine serves the user's plane; `find_dockable_jws` keeps, for each
 * door, the nearest visible jetway on the left side of the plane in the
 * fixed array `active_jw`, and `reset_jetways` puts every jetway back.
 *
 * It differs from os_jw.cpp: no candidate buffer, no lock, a target 3
 * degrees further for door 1, rotate3 derived with `asinf`, limit
 * violations forgiven below 50 m, rotate3 never snapping to its target,
 * and a wheel base that reports "still turning" instead of "done".
 *
 * The sine, cosine, tangent, `atan2`, `asinf` and square root are the
 * parameters of `Math` and `asinD`; the simulator's reads (plane position
 * and heading, beacon, ground contact, teleport check) are parameters.
 */
module OsJwLegacy {
  import opened Wrappers
  import opened OpenSamH
  import opened SamJws
  import opened JwCtrls

  /** `MAX_DOOR`: the size of `active_jw` and of the door table. */
  const MaxDoor := 3
  /** The distance an empty slot of `active_jw` starts with (m). */
  const KFarDist: real := 10000000000.0
  /** A jetway outside its sam.xml limits is still taken when closer than this to its door (m). */
  const KForgiveDist: real := 50.0
  /** The extra rotate2 of door 1's target (degrees). */
  const KDoor1Rot2: real := 3.0
  /** rotate2 and rotate3 count as done within this many degrees. */
  const KRotTolerance: real := 0.5
  /** The wheel base turns in steps while more than this many degrees are left. */
  const KWbTolerance: real := 2.0

  // ---------------------------------------------------------------------
  // Targets at the door
  // ---------------------------------------------------------------------

  /**
   * `jw_xy_to_sam_dr`: rotate1, extent, rotate2 and rotate3 that put the
   * tunnel end at (cx, cz) for a jetway at (x, z) with heading psi and
   * height y over the door; rotate3 is `RA(-asin(y / net length))`.
   */
  function XyToSamDr(x: real, z: real, psi: real, y: real, g: Geometry, cx: real, cz: real, m: Math,
                     asinD: real -> real): (r: (real, real, real, real))
    ensures -180.0 < r.0 <= 180.0 && -180.0 < r.2 <= 180.0 && -180.0 < r.3 <= 180.0
    ensures r.1 == Len2(m, cx - x, cz - z) - g.cabinPos
  {
    var dist := Len2(m, cx - x, cz - z);
    var rot1 := RA(m.atan2D(cz - z, cx - x) + 90.0 - psi);
    var r2 := RA(0.0 + 90.0 - psi - rot1);
    var netLength := dist + g.cabinLength * m.cosD(r2);
    (rot1, dist - g.cabinPos, r2, RA(-asinD(Div(y, netLength))))
  }

  /** The first three values are those of the newer `xz_to_sam_dr`; only rotate3 is derived differently. */
  lemma XyToSamDrAgrees(x: real, z: real, psi: real, y: real, g: Geometry, cx: real, cz: real, m: Math,
                        asinD: real -> real)
    ensures var r := XyToSamDr(x, z, psi, y, g, cx, cz, m, asinD);
      var n := XzToSamDr(x, z, psi, y, g, cx, cz, m);
      r.0 == n.0 && r.1 == n.1 && r.2 == n.2
  {
  }

  /** A tentative `active_jw_t`: the jetway in the door frame and its dataref values at the door. */
  datatype Tent = Tent(x: real, z: real, psi: real, y: real, dist: real, tgtX: real,
                       tgtRot1: real, tgtRot2: real, tgtRot3: real, tgtExtent: real)

  /**
   * The tentative slot `find_dockable_jws` computes for a jetway and its
   * door: the position rotated into the plane's frame and moved to the
   * door, the distance to the door, and the targets for a tunnel end one
   * cabin length ahead of the door; door 1 (index 0) turns rotate2 by 3
   * degrees more.
   */
  function Tentative(p: JwPose, door: int, plane: PlanePose, di: DoorInfo, m: Math, asinD: real -> real): (t: Tent)
    ensures t.dist == Len2(m, t.x, t.z) && t.tgtX == -p.geom.cabinLength
  {
    var dx := p.x - plane.x;
    var dz := p.z - plane.z;
    var sinPsi := m.sinD(plane.psi);
    var cosPsi := m.cosD(plane.psi);
    var x := cosPsi * dx + sinPsi * dz - di.x;
    var z := -sinPsi * dx + cosPsi * dz - di.z;
    var psi := RA(p.psi - plane.psi);
    var y := (p.y + p.geom.height) - (plane.y + di.y);
    var dr := XyToSamDr(x, z, psi, y, p.geom, -p.geom.cabinLength, 0.0, m, asinD);
    Tent(x, z, psi, y, Len2(m, x, z), -p.geom.cabinLength, dr.0, dr.2 + (if door == 0 then KDoor1Rot2 else 0.0), dr.3, dr.1)
  }

  /**
   * Against the newer `setup_for_door`: the same door-frame position and
   * the same rotate1 and extent targets; the rotate2 target is the same
   * except for the 3 degrees of door 1.
   */
  lemma TentativeAgrees(p: JwPose, door: int, plane: PlanePose, di: DoorInfo, m: Math, asinD: real -> real)
    ensures var t := Tentative(p, door, plane, di, m, asinD);
      var s := SetupFrom(p, plane, di, m);
      t.x == s.x && t.z == s.z && t.psi == s.psi && t.y == s.y && t.tgtX == s.doorX
      && t.tgtRot1 == s.doorRot1 && t.tgtExtent == s.doorExtent
      && t.tgtRot2 == s.doorRot2 + (if door == 0 then KDoor1Rot2 else 0.0)
  {
    var t := Tentative(p, door, plane, di, m, asinD);
    var s := SetupFrom(p, plane, di, m);
    XyToSamDrAgrees(t.x, t.z, t.psi, t.y, p.geom, -p.geom.cabinLength, 0.0, m, asinD);
  }

  /** On the left side and not pointing away: the jetway can reach the door. */
  predicate LeftSide(t: Tent)
  {
    !(t.x > 0.0 || Between(t.psi, -170.0, 20.0))
  }

  // ---------------------------------------------------------------------
  // find_dockable_jws on values
  // ---------------------------------------------------------------------

  /** What `find_dockable_jws` reads of a jetway. */
  datatype JwSnap = JwSnap(pose: JwPose, door: int, objRefGen: nat, rotate3: real)

  function SnapOf(j: SamJw): JwSnap
    reads j`x, j`z, j`y, j`psi, j`initialRot1, j`extent, j`initialExtent, j`geom, j`door, j`objRefGen, j`rotate3
  {
    JwSnap(PoseOf(j), j.door, j.objRefGen, j.rotate3)
  }

  /** The plane's side of the search: its doors, pose, the current reference generation and the math. */
  datatype Ctx = Ctx(nDoor: int, doors: seq<DoorInfo>, plane: PlanePose, refGen: nat, m: Math, asinD: real -> real)

  /** The door table has `MAX_DOOR` entries, `n_door` of them in use; sam.xml's doors are 0..2. */
  predicate CtxOk(c: Ctx, snaps: seq<JwSnap>)
  {
    0 <= c.nDoor <= MaxDoor && |c.doors| == MaxDoor
    && forall k :: 0 <= k < |snaps| ==> 0 <= snaps[k].door < MaxDoor
  }

  datatype AjwState = AjwParked | AjwToAp | AjwAtAp | AjwToDoor | AjwDocked | AjwToPark

  /**
   * An entry of `active_jw`: the jetway it holds (as its index in the
   * sceneries' jetway list), the tentative values, the drive state, the
   * alignment point, the parked and the current tunnel end, and the times
   * of the drive.
   */
  datatype Slot = Slot(jw: Option<nat>, t: Tent, state: AjwState, apX: real, parkedX: real, parkedZ: real,
                       cabinX: real, cabinZ: real, lastStepTs: real, timeout: real)

  const ZeroTent := Tent(0.0, 0.0, 0.0, 0.0, 0.0, 0.0, 0.0, 0.0, 0.0, 0.0)

  /** A zeroed slot, as the static array starts. */
  const ZeroSlot := Slot(None, ZeroTent, AjwParked, 0.0, 0.0, 0.0, 0.0, 0.0, 0.0, 0.0)

  /** A slot after the `memset` and the distance of 1e10. */
  const EmptySlot := ZeroSlot.(t := ZeroTent.(dist := KFarDist))

  /** The slot a tentative jetway fills: its values, everything else zero. */
  function Claim(k: nat, t: Tent): Slot
  {
    ZeroSlot.(jw := Some(k), t := t)
  }

  /** What the first loop makes of jetway k: whether it competes, for which door, and its tentative slot. */
  datatype Entry = Entry(eligible: bool, door: int, t: Tent)

  /**
   * One jetway of the first loop: it competes for its door when it was
   * drawn in this generation, the plane has that door, and it stands on the
   * left side not pointing away.
   */
  function EntryOf(sn: JwSnap, c: Ctx): (e: Entry)
    requires 0 <= sn.door < MaxDoor && |c.doors| == MaxDoor
    ensures e.door == sn.door && (e.eligible ==> sn.door < c.nDoor)
  {
    var t := Tentative(sn.pose, sn.door, c.plane, c.doors[sn.door], c.m, c.asinD);
    Entry(sn.objRefGen >= c.refGen && sn.door < c.nDoor && LeftSide(t), sn.door, t)
  }

  function Entries(snaps: seq<JwSnap>, c: Ctx): (es: seq<Entry>)
    requires CtxOk(c, snaps)
    ensures |es| == |snaps| && EntriesOk(es)
    ensures forall k :: 0 <= k < |es| ==> es[k] == EntryOf(snaps[k], c)
  {
    seq(|snaps|, k requires 0 <= k < |snaps| => EntryOf(snaps[k], c))
  }

  predicate EntriesOk(es: seq<Entry>)
  {
    forall k :: 0 <= k < |es| ==> 0 <= es[k].door < MaxDoor
  }

  /**
   * The first loop over the first k jetways: an eligible jetway replaces
   * its door's slot unless it is farther from the door than the slot's.
   */
  function Pick(es: seq<Entry>, k: nat): (r: seq<Slot>)
    requires EntriesOk(es) && k <= |es|
    ensures |r| == MaxDoor
  {
    if k == 0 then seq(MaxDoor, _ => EmptySlot)
    else
      var s := Pick(es, k - 1);
      var e := es[k - 1];
      if !e.eligible || e.t.dist > s[e.door].t.dist then s
      else s[e.door := Claim(k - 1, e.t)]
  }

  /**
   * After k jetways, slot d holds the eligible jetway for door d that is
   * nearest to the door, the later one of equally near ones, with its
   * tentative values; it is empty exactly when no eligible jetway for door
   * d comes within 1e10 m.
   */
  predicate Nearest(es: seq<Entry>, k: nat, s: seq<Slot>)
    requires k <= |es| && |s| == MaxDoor
  {
    forall d :: 0 <= d < MaxDoor ==> SlotNearest(es, k, s, d)
  }

  /** `Nearest` for one door. */
  predicate SlotNearest(es: seq<Entry>, k: nat, s: seq<Slot>, d: int)
    requires k <= |es| && |s| == MaxDoor && 0 <= d < MaxDoor
  {
    match s[d].jw
    case None =>
      s[d] == EmptySlot
      && forall i :: 0 <= i < k && es[i].eligible && es[i].door == d ==> es[i].t.dist > KFarDist
    case Some(j) =>
      j < k && es[j].eligible && es[j].door == d && s[d] == Claim(j, es[j].t) && es[j].t.dist <= KFarDist
      && (forall i :: 0 <= i < j && es[i].eligible && es[i].door == d ==> es[j].t.dist <= es[i].t.dist)
      && (forall i :: j < i < k && es[i].eligible && es[i].door == d ==> es[j].t.dist < es[i].t.dist)
  }

  lemma PickNearest(es: seq<Entry>, k: nat)
    requires EntriesOk(es) && k <= |es|
    ensures Nearest(es, k, Pick(es, k))
  {
    var i := 0;
    while i < k
      invariant i <= k && Nearest(es, i, Pick(es, i))
    {
      PickStepDoor(es, i, 0);
      PickStepDoor(es, i, 1);
      PickStepDoor(es, i, 2);
      i := i + 1;
    }
  }

  /** One more jetway keeps door e's slot the nearest. */
  lemma PickStepDoor(es: seq<Entry>, k: nat, d: int)
    requires EntriesOk(es) && k < |es| && 0 <= d < MaxDoor && SlotNearest(es, k, Pick(es, k), d)
    ensures SlotNearest(es, k + 1, Pick(es, k + 1), d)
  {
    var s := Pick(es, k);
    var r := Pick(es, k + 1);
    var e := es[k];
    if e.door != d || !e.eligible {
      assert r[d] == s[d];
    } else if e.t.dist > s[d].t.dist {
      assert r == s;
    } else {
      assert r[d] == Claim(k, e.t);
    }
  }

  /** Every slot holds a jetway of `snaps` that belongs to the slot's door. */
  predicate Placed(snaps: seq<JwSnap>, s: seq<Slot>)
  {
    |s| == MaxDoor
    && forall d :: 0 <= d < MaxDoor && s[d].jw.Some? ==> s[d].jw.value < |snaps| && snaps[s[d].jw.value].door == d
  }

  /** The slots of the first loop. */
  function FirstLoop(snaps: seq<JwSnap>, c: Ctx): (r: seq<Slot>)
    requires CtxOk(c, snaps)
    ensures |r| == MaxDoor
  {
    Pick(Entries(snaps, c), |snaps|)
  }

  /** The entries belong to the jetways of `snaps`, in order, and only jetways for the plane's doors compete. */
  predicate Agree(es: seq<Entry>, snaps: seq<JwSnap>, nDoor: int)
  {
    |es| == |snaps|
    && forall k :: 0 <= k < |es| ==> es[k].door == snaps[k].door && (es[k].eligible ==> es[k].door < nDoor)
  }

  lemma EntriesAgree(snaps: seq<JwSnap>, c: Ctx)
    requires CtxOk(c, snaps)
    ensures Agree(Entries(snaps, c), snaps, c.nDoor)
  {
  }

  /** A slot of the first loop holds a jetway for its own door; the doors the plane does not have stay empty. */
  lemma PickPlaced(es: seq<Entry>, snaps: seq<JwSnap>, nDoor: int)
    requires EntriesOk(es) && Agree(es, snaps, nDoor)
    ensures Placed(snaps, Pick(es, |es|))
    ensures forall d :: 0 <= d < MaxDoor && nDoor <= d ==> Pick(es, |es|)[d] == EmptySlot
  {
    PickNearest(es, |es|);
    assert forall d :: 0 <= d < MaxDoor ==> SlotNearest(es, |es|, Pick(es, |es|), d);
  }

  /** After the first loop every slot holds a jetway for its own door. */
  lemma FirstLoopPlaced(snaps: seq<JwSnap>, c: Ctx)
    requires CtxOk(c, snaps)
    ensures Placed(snaps, FirstLoop(snaps, c))
  {
    EntriesAgree(snaps, c);
    PickPlaced(Entries(snaps, c), snaps, c.nDoor);
  }

  // ---------------------------------------------------------------------
  // The sanity check
  // ---------------------------------------------------------------------

  /** The door targets are within the sam.xml limits of rotate1, rotate2 and the extent. */
  predicate InLimits(t: Tent, g: Geometry)
  {
    Between(t.tgtRot1, g.minRot1, g.maxRot1) && Between(t.tgtRot2, g.minRot2, g.maxRot2)
    && Between(t.tgtExtent, g.minExtent, g.maxExtent)
  }

  /** The sanity check keeps a jetway within its limits, or outside them when it is less than 50 m from the door. */
  predicate Accepted(g: Geometry, t: Tent)
  {
    InLimits(t, g) || t.dist < KForgiveDist
  }

  /** The slot holds a jetway of `snaps` that passes the sanity check. */
  predicate Takes(snaps: seq<JwSnap>, s: Slot)
  {
    s.jw.Some? && s.jw.value < |snaps| && Accepted(snaps[s.jw.value].pose.geom, s.t)
  }

  /**
   * The final values of an accepted slot: the parked and the current tunnel
   * end, on the line of the initial rotate1 seen from the jetway, and the
   * alignment point 1 m before the door target.
   */
  function Finish(s: Slot, p: JwPose, m: Math): (r: Slot)
    ensures r.jw == s.jw && r.t == s.t && r.state == s.state && r.apX == s.t.tgtX - KAlignDist
  {
    var e := TunnelEnds(s.t.x, s.t.z, s.t.psi, p, m);
    s.(parkedX := e.0, parkedZ := e.1, cabinX := e.2, cabinZ := e.3, apX := s.t.tgtX - KAlignDist)
  }

  /** A slot after the sanity check: finished when it passes, left as it is otherwise (a rejected jetway stays in it). */
  function Settled(snaps: seq<JwSnap>, m: Math, s: Slot): (r: Slot)
    ensures r.jw == s.jw && r.t == s.t && r.state == s.state
  {
    if Takes(snaps, s) then Finish(s, snaps[s.jw.value].pose, m) else s
  }

  /** The slots after the sanity check of the first n doors. */
  function Settle(snaps: seq<JwSnap>, m: Math, s: seq<Slot>, n: nat): (r: seq<Slot>)
    requires |s| == MaxDoor
    ensures |r| == MaxDoor
  {
    seq(MaxDoor, d requires 0 <= d < MaxDoor => if d < n then Settled(snaps, m, s[d]) else s[d])
  }

  /** `n_active_jw` after the sanity check of the first n doors: one more than the last door whose slot passed. */
  function ActiveCount(snaps: seq<JwSnap>, s: seq<Slot>, n: nat): (a: nat)
    requires n <= |s|
    ensures a <= n
  {
    if n == 0 then 0 else if Takes(snaps, s[n - 1]) then n else ActiveCount(snaps, s, n - 1)
  }

  /**
   * The active count is one more than the last door among the first n whose
   * slot passed the check, and 0 when none did; slots below it need not
   * have passed.
   */
  lemma {:induction false} ActiveCountIsLastTaken(snaps: seq<JwSnap>, s: seq<Slot>, n: nat)
    requires n <= |s|
    ensures var a := ActiveCount(snaps, s, n);
      (a > 0 ==> Takes(snaps, s[a - 1])) && forall d :: a <= d < n ==> !Takes(snaps, s[d])
  {
    if n > 0 && !Takes(snaps, s[n - 1]) {
      ActiveCountIsLastTaken(snaps, s, n - 1);
    }
  }

  /** The slots `find_dockable_jws` leaves for a plane with doors. */
  function Found(snaps: seq<JwSnap>, c: Ctx): (r: seq<Slot>)
    requires CtxOk(c, snaps)
    ensures |r| == MaxDoor
  {
    Settle(snaps, c.m, FirstLoop(snaps, c), c.nDoor)
  }

  /** What `find_dockable_jws` returns, and sets `n_active_jw` to, for a plane with doors. */
  function FoundCount(snaps: seq<JwSnap>, c: Ctx): nat
    requires CtxOk(c, snaps)
  {
    ActiveCount(snaps, FirstLoop(snaps, c), c.nDoor)
  }

  /** Jetway k is held by its door's slot after the first loop and passed the check of the first n doors. */
  predicate Held(snaps: seq<JwSnap>, s: seq<Slot>, k: nat, n: nat)
    requires k < |snaps| && |s| == MaxDoor
  {
    var d := snaps[k].door;
    0 <= d < n && d < MaxDoor && s[d].jw == Some(k) && Takes(snaps, s[d])
  }

  /** A slot whose tentative values place the jetway as `setup_for_door` does is finished as `setup_for_door` parks it. */
  lemma FinishMatches(k: nat, t: Tent, p: JwPose, plane: PlanePose, di: DoorInfo, m: Math)
    requires var s := SetupFrom(p, plane, di, m); t.x == s.x && t.z == s.z && t.psi == s.psi && t.tgtX == s.doorX
    ensures var f := Finish(Claim(k, t), p, m);
      var s := SetupFrom(p, plane, di, m);
      f.parkedX == s.parkedX && f.parkedZ == s.parkedZ && f.cabinX == s.cabinX && f.cabinZ == s.cabinZ
      && f.apX == s.apX
  {
  }

  /**
   * A jetway that passed the check is parked where `setup_for_door` of
   * os_jw.cpp puts it: the parked and the current tunnel end and the
   * alignment point of its finished slot are the same.
   */
  lemma FinishAgrees(k: nat, p: JwPose, door: int, plane: PlanePose, di: DoorInfo, m: Math, asinD: real -> real)
    ensures var f := Finish(Claim(k, Tentative(p, door, plane, di, m, asinD)), p, m);
      var s := SetupFrom(p, plane, di, m);
      f.parkedX == s.parkedX && f.parkedZ == s.parkedZ && f.cabinX == s.cabinX && f.cabinZ == s.cabinZ
      && f.apX == s.apX
  {
    TentativeAgrees(p, door, plane, di, m, asinD);
    FinishMatches(k, Tentative(p, door, plane, di, m, asinD), p, plane, di, m);
  }

  // ---------------------------------------------------------------------
  // Setting out for docking and undocking
  // ---------------------------------------------------------------------

  /** A slot set out toward its alignment point at `now`, to give up 50 s later. */
  function Armed(s: Slot, now: real): (r: Slot)
    ensures r.jw == s.jw && r.t == s.t && r.state == AjwToAp && r.lastStepTs == now && r.timeout == now + KAnimTimeout
  {
    s.(state := AjwToAp, lastStepTs := now, timeout := now + KAnimTimeout)
  }

  /** The CAN_DOCK and DOCKED arms as written: every slot below `n_active_jw` sets out, whatever it holds. */
  function ArmBelow(s: seq<Slot>, n: int, now: real): (r: seq<Slot>)
    requires |s| == MaxDoor
    ensures |r| == MaxDoor
  {
    seq(MaxDoor, i requires 0 <= i < MaxDoor => if i < n then Armed(s[i], now) else s[i])
  }

  /**
   * As written: when door 1 of a plane with two doors has no dockable
   * jetway and door 2 has one, `n_active_jw` is 2 and slot 0, which holds
   * no jetway, sets out; `dock_drive` then reads through its null jetway.
   */
  lemma EmptySlotArmed(snaps: seq<JwSnap>, s: seq<Slot>, m: Math, now: real)
    requires Placed(snaps, s) && s[0].jw.None? && Takes(snaps, s[1])
    ensures ActiveCount(snaps, s, 2) == 2
    ensures var a := ArmBelow(Settle(snaps, m, s, 2), ActiveCount(snaps, s, 2), now);
      a[0].jw.None? && a[0].state == AjwToAp
  {
  }

  /** The arming as evidently intended: only the slots whose jetway passed the check set out. */
  function ArmTaken(snaps: seq<JwSnap>, s: seq<Slot>, n: int, now: real): (r: seq<Slot>)
    requires |s| == MaxDoor
    ensures |r| == MaxDoor
  {
    seq(MaxDoor, i requires 0 <= i < MaxDoor => if i < n && Takes(snaps, s[i]) then Armed(s[i], now) else s[i])
  }

  /**
   * With the corrected arming, the slots of the plane's doors that set out
   * are exactly those whose jetway passed the check, and each holds one.
   */
  lemma ArmTakenArmsTaken(snaps: seq<JwSnap>, s: seq<Slot>, nDoor: nat, now: real)
    requires |s| == MaxDoor && nDoor <= MaxDoor
    ensures var r := ArmTaken(snaps, s, ActiveCount(snaps, s, nDoor), now);
      forall i :: 0 <= i < nDoor ==> r[i] == (if Takes(snaps, s[i]) then Armed(s[i], now) else s[i])
    ensures var r := ArmTaken(snaps, s, ActiveCount(snaps, s, nDoor), now);
      forall i :: 0 <= i < MaxDoor && r[i] != s[i] ==> r[i].jw.Some?
  {
    ActiveCountIsLastTaken(snaps, s, nDoor);
  }

  // ---------------------------------------------------------------------
  // Animation steps
  // ---------------------------------------------------------------------

  /**
   * The wheel base angle `rotate_wheel_base` turns to: a drive angle more
   * than 90 degrees off the tunnel is driven backwards, half a turn around.
   */
  function WbTarget(wbRot: real): real
  {
    if Abs(wbRot) > 90.0 then RA(180.0 + wbRot) else wbRot
  }

  /** For a drive angle in (-180, 180] the wheel base never turns more than 90 degrees off the tunnel. */
  lemma WbTargetRange(wbRot: real)
    requires -180.0 < wbRot <= 180.0
    ensures -90.0 <= WbTarget(wbRot) <= 90.0
    ensures Abs(wbRot) > 90.0 ==> WbTarget(wbRot) == (if wbRot > 0.0 then wbRot - 180.0 else wbRot + 180.0)
  {
    if Abs(wbRot) > 90.0 {
      var a := 180.0 + wbRot;
      RAWholeTurns(a);
      var k := Turns(a);
      assert a - RA(a) == k as real * 360.0;
    }
  }

  /**
   * The turn of one `rotate_wheel_base` call from wheelrotatec c toward wb:
   * dt·10 degrees while more than 2 degrees are left, the rest otherwise.
   */
  function WbTurn(wb: real, c: real, dt: real): real
  {
    if Abs(c - wb) > KWbTolerance then (if wb < c then -(dt * KTurnSpeed) else dt * KTurnSpeed) else wb - c
  }

  /** The last call lands on wb exactly; a waiting call with a step no larger than the gap brings the base closer by the step. */
  lemma WbTurnApproaches(wb: real, c: real, dt: real)
    ensures Abs(c - wb) <= KWbTolerance ==> c + WbTurn(wb, c, dt) == wb
    ensures Abs(c - wb) > KWbTolerance && 0.0 <= dt * KTurnSpeed <= Abs(c - wb) ==>
      Abs(c + WbTurn(wb, c, dt) - wb) == Abs(c - wb) - dt * KTurnSpeed
  {
  }

  /**
   * `rotate_wheel_base` of os_jw.c: turns the wheel base one step toward
   * the drive angle and reports that the drive must wait while more than 2
   * degrees were left; the wheels turn by opposite amounts.
   */
  method RotateWheelBase(jw: SamJw, wbRot: real, dt: real) returns (waiting: bool)
    modifies jw`wheelrotatec, jw`wheelrotatel, jw`wheelrotater
    ensures var wb := WbTarget(wbRot);
      var d := WbTurn(wb, old(jw.wheelrotatec), dt);
      (waiting <==> Abs(old(jw.wheelrotatec) - wb) > KWbTolerance)
      && jw.wheelrotatec == old(jw.wheelrotatec) + d
      && jw.wheelrotatel == old(jw.wheelrotatel) + WheelSpread(d, jw.geom)
      && jw.wheelrotatel + jw.wheelrotater == old(jw.wheelrotatel) + old(jw.wheelrotater)
  {
    var wb := wbRot;
    if Abs(wb) > 90.0 {
      wb := RA(180.0 + wb);
    }
    var dRot: real;
    if Abs(jw.wheelrotatec - wb) > KWbTolerance {
      dRot := dt * KTurnSpeed;
      if wb < jw.wheelrotatec {
        dRot := -dRot;
      }
      jw.wheelrotatec := jw.wheelrotatec + dRot;
      waiting := true;
    } else {
      dRot := wb - jw.wheelrotatec;
      jw.wheelrotatec := wb;
      waiting := false;
    }
    var daRot := WheelSpread(dRot, jw.geom);
    jw.wheelrotatel := jw.wheelrotatel + daRot;
    jw.wheelrotater := jw.wheelrotater - daRot;
  }

  /** `rotate_2` of os_jw.c: one step toward the target; done once within 0.5 degrees, where it snaps. */
  method Rotate2(jw: SamJw, tgtRot2: real, dt: real) returns (done: bool)
    modifies jw`rotate2
    ensures jw.rotate2 == Rot2Step(old(jw.rotate2), tgtRot2, dt)
    ensures done <==> Abs(jw.rotate2 - tgtRot2) <= KRotTolerance
  {
    if Abs(jw.rotate2 - tgtRot2) > KRotTolerance {
      var dRot2 := dt * KTurnSpeed;
      if jw.rotate2 >= tgtRot2 {
        jw.rotate2 := Max(jw.rotate2 - dRot2, tgtRot2);
      } else {
        jw.rotate2 := Min(jw.rotate2 + dRot2, tgtRot2);
      }
      return Abs(jw.rotate2 - tgtRot2) <= KRotTolerance;
    }
    jw.rotate2 := tgtRot2;
    return true;
  }

  /** The rotate3 step of one call: the height speed over the lever length, in degrees. */
  function Rot3Increment(g: Geometry, extent: real, dt: real, m: Math): real
  {
    Div(dt * KHeightSpeed, g.cabinPos + extent) * m.degPerRad
  }

  /** One rotate3 step of os_jw.c toward the target, clamped at it; no step within 0.5 degrees, and no snap. */
  function Rot3StepLegacy(cur: real, tgt: real, step: real): real
  {
    if Abs(cur - tgt) > KRotTolerance then
      (if cur >= tgt then Max(cur - step, tgt) else Min(cur + step, tgt))
    else cur
  }

  /**
   * A step never overshoots; a value within 0.5 degrees of the target stays
   * where it is, so rotate3 may end its drive up to 0.5 degrees off.
   */
  lemma Rot3StepLegacyBounds(cur: real, tgt: real, step: real)
    requires step >= 0.0
    ensures Min(cur, tgt) <= Rot3StepLegacy(cur, tgt, step) <= Max(cur, tgt)
    ensures Abs(Rot3StepLegacy(cur, tgt, step) - cur) <= step
    ensures Abs(cur - tgt) <= KRotTolerance ==> Rot3StepLegacy(cur, tgt, step) == cur
  {
  }

  /**
   * `rotate_3` of os_jw.c: one step toward the target, the wheel height set
   * from the new value; done once within 0.5 degrees, without snapping.
   */
  method Rotate3(jw: SamJw, tgtRot3: real, dt: real, m: Math) returns (done: bool)
    modifies jw`rotate3, jw`wheels
    ensures jw.rotate3 == Rot3StepLegacy(old(jw.rotate3), tgtRot3, Rot3Increment(jw.geom, jw.extent, dt, m))
    ensures jw.wheels == jw.WheelsAt(jw.rotate3, jw.extent, m.tanD)
    ensures done <==> Abs(jw.rotate3 - tgtRot3) <= KRotTolerance
  {
    if Abs(jw.rotate3 - tgtRot3) > KRotTolerance {
      var dRot3 := Rot3Increment(jw.geom, jw.extent, dt, m);
      if jw.rotate3 >= tgtRot3 {
        jw.rotate3 := Max(jw.rotate3 - dRot3, tgtRot3);
      } else {
        jw.rotate3 := Min(jw.rotate3 + dRot3, tgtRot3);
      }
    }
    jw.wheels := jw.WheelsAt(jw.rotate3, jw.extent, m.tanD);
    done := Abs(jw.rotate3 - tgtRot3) <= KRotTolerance;
  }

  // ---------------------------------------------------------------------
  // jw_state_machine
  // ---------------------------------------------------------------------

  /** The codes of `state_t` in os_jw.c. */
  const StDisabled := 0
  const StIdle := 1
  const StParked := 2
  const StCanDock := 3
  const StDocking := 4
  const StDocked := 5
  const StUndocking := 6
  const StCantDock := 7

  /** JW_ANIM_INTERVAL: the delay while a drive runs (every frame). */
  const AnimInterval: real := -1.0

  /** The machine's globals that one cycle reads and writes. */
  datatype Regs = Regs(state: int, nActive: int, dock: bool, undock: bool, toggle: bool,
                       parkedX: real, parkedY: real, parkedNgen: nat)

  /**
   * What one cycle observes: the beacon, ground contact and the teleport
   * check, the plane's position and the reference generation, whether the
   * plane has no door, what `find_dockable_jws` finds, and how many drives
   * reported done.
   */
  datatype Seen = Seen(beaconOn: bool, onGround: bool, teleported: bool, planeX: real, planeY: real, refGen: nat,
                       noDoors: bool, found: nat, nDone: int)

  /** The outcome of a `switch` arm: the registers with the new state, or an early return while a drive runs. */
  datatype ArmOut = Go(r: Regs) | Wait

  /** The state the `switch` starts in: a teleport from beyond IDLE drops to IDLE, and the jetways are reset. */
  function Entered(r: Regs, v: Seen): Regs
  {
    if r.state > StIdle && v.teleported then r.(state := StIdle, nActive := 0) else r
  }

  /** The `switch` of `jw_state_machine`, starting with the registers `r`. */
  function Arm(r: Regs, v: Seen): ArmOut
  {
    var s := r.state;
    if s == StIdle then
      Go(if v.onGround && !v.beaconOn then r.(state := StParked, parkedX := v.planeX, parkedY := v.planeY, parkedNgen := v.refGen)
         else r)
    else if s == StParked then
      // without doors `find_dockable_jws` returns 0 and leaves `n_active_jw` alone
      Go(if v.noDoors then r.(state := StCantDock)
         else r.(state := if v.found > 0 then StCanDock else StCantDock, nActive := v.found))
    else if s == StCanDock then Go(if (r.dock || r.toggle) && r.nActive > 0 then r.(state := StDocking) else r)
    else if s == StCantDock then Go(if !v.onGround || v.beaconOn then r.(state := StIdle) else r)
    else if s == StDocking then (if v.nDone == r.nActive then Go(r.(state := StDocked)) else Wait)
    else if s == StDocked then
      Go(if !v.onGround || v.beaconOn then r.(state := StIdle)
         else if (r.undock || r.toggle) && r.nActive > 0 then r.(state := StUndocking) else r)
    else if s == StUndocking then (if v.nDone == r.nActive then Go(r.(state := StIdle)) else Wait)
    else Go(r.(state := StDisabled))
  }

  /**
   * One call of `jw_state_machine`: the new registers and the returned
   * delay.  DISABLED returns 2 s; with the beacon on the machine returns
   * 0.5 s at once; a drive still running returns -1 without clearing the
   * requests; otherwise the requests are cleared and a state change is
   * reported with -1, no change with 0.5 s.
   */
  function Cycle(r: Regs, v: Seen): (Regs, real)
  {
    if r.state == StDisabled then (r, 2.0)
    else if v.beaconOn then (r, 0.5)
    else
      var e := Entered(r, v);
      CycleEnd(e, Arm(e, v))
  }

  /** The end of a cycle from the registers e: a wait keeps them, otherwise the requests are cleared and a change of state is reported. */
  function CycleEnd(e: Regs, a: ArmOut): (Regs, real)
  {
    match a
    case Wait => (e, AnimInterval)
    case Go(n) => (n.(dock := false, undock := false, toggle := false), if n.state != e.state then -1.0 else 0.5)
  }

  /** DISABLED is final: the machine stays there and polls every 2 s. */
  lemma CycleDisabled(r: Regs, v: Seen)
    requires r.state == StDisabled
    ensures Cycle(r, v) == (r, 2.0)
  {
  }

  /**
   * While the beacon is on nothing happens, whatever the state: no
   * teleport check, no drive, and pending requests stay pending until the
   * beacon is off.
   */
  lemma BeaconFreezes(r: Regs, v: Seen)
    requires r.state != StDisabled && v.beaconOn
    ensures Cycle(r, v) == (r, 0.5)
  {
  }

  /**
   * DOCKING is entered only from CAN_DOCK, with the beacon off, no
   * teleport, a dock request or a toggle, and at least one active slot.
   */
  lemma DockingOnRequest(r: Regs, v: Seen)
    requires r.state != StDocking && Cycle(r, v).0.state == StDocking
    ensures r.state == StCanDock && !v.beaconOn && !v.teleported && (r.dock || r.toggle) && r.nActive > 0
  {
  }

  /** CAN_DOCK is entered only from PARKED, when the plane has doors and the search found jetways; their count is kept. */
  lemma CanDockOnFound(r: Regs, v: Seen)
    requires r.state != StCanDock && Cycle(r, v).0.state == StCanDock
    ensures r.state == StParked && !v.beaconOn && !v.teleported && !v.noDoors && v.found > 0
    ensures Cycle(r, v).0.nActive == v.found
  {
  }

  /** A plane without doors never docks: PARKED goes to CANT_DOCK. */
  lemma NoDoorsCantDock(r: Regs, v: Seen)
    requires r.state == StParked && !v.beaconOn && !v.teleported && v.noDoors
    ensures Cycle(r, v).0.state == StCantDock && Cycle(r, v).0.nActive == r.nActive
  {
  }

  /**
   * A request lasts one cycle: a cycle that gets past the beacon and does
   * not wait on a drive clears all three, whether it used them or not.
   */
  lemma RequestsCleared(r: Regs, v: Seen)
    requires r.state != StDisabled && !v.beaconOn && Arm(Entered(r, v), v).Go?
    ensures !Cycle(r, v).0.dock && !Cycle(r, v).0.undock && !Cycle(r, v).0.toggle
  {
  }

  /** A cycle that waits on a drive changes no register and asks for the next frame. */
  lemma CycleWaitKeeps(r: Regs, v: Seen)
    requires r.state != StDisabled && !v.beaconOn && Arm(Entered(r, v), v).Wait?
    ensures Cycle(r, v) == (r, AnimInterval)
  {
  }

  /**
   * A teleport while airborne drops DOCKED to IDLE and forgets the active
   * jetways, yet returns 0.5 s: the state is changed before the `switch`,
   * which then sees no change to report.
   */
  lemma TeleportAirborneUnreported(r: Regs, v: Seen)
    requires r.state == StDocked && !v.beaconOn && v.teleported && !v.onGround
    ensures Cycle(r, v).0.state == StIdle && Cycle(r, v).0.nActive == 0 && Cycle(r, v).1 == 0.5
  {
  }

  /** The delay is one of the three delays the source returns. */
  lemma CycleDelays(r: Regs, v: Seen)
    ensures Cycle(r, v).1 in {2.0, 0.5, -1.0}
  {
  }

  /**
   * `jw_status_acc`, the value of opensam/jetway/status: 0 without an
   * active jetway, 1 when it can dock, 2 when docked, -1 otherwise.
   */
  function Status(state: int, nActive: int): (r: int)
    ensures r == 0 <==> nActive == 0
    ensures r == 1 <==> nActive != 0 && state == StCanDock
    ensures r == 2 <==> nActive != 0 && state == StDocked
    ensures r == -1 <==> nActive != 0 && state != StCanDock && state != StDocked
  {
    if nActive == 0 then 0 else if state == StCanDock then 1 else if state == StDocked then 2 else -1
  }

  /** The sanity check of one more door changes that door's slot only. */
  lemma SettleStep(snaps: seq<JwSnap>, m: Math, s: seq<Slot>, i: nat)
    requires |s| == MaxDoor && i < MaxDoor
    ensures Settle(snaps, m, s, i + 1) == Settle(snaps, m, s, i)[i := Settled(snaps, m, s[i])]
    ensures Settle(snaps, m, s, i)[i] == s[i]
  {
    assert Settle(snaps, m, s, i)[i] == s[i];
  }

  /** One more door holds one more jetway: the one in its slot, when that passed the check. */
  lemma HeldStep(snaps: seq<JwSnap>, s: seq<Slot>, i: nat)
    requires Placed(snaps, s) && i < MaxDoor
    ensures forall k :: 0 <= k < |snaps| ==> (Held(snaps, s, k, i + 1) <==>
      (Held(snaps, s, k, i) || (s[i].jw == Some(k) && Takes(snaps, s[i]))))
  {
  }

  /** What `find_dockable_jws` returns for the plane of c: 0 without doors. */
  function FoundOrZero(snaps: seq<JwSnap>, c: Ctx): nat
    requires CtxOk(c, snaps)
  {
    if c.nDoor == 0 then 0 else FoundCount(snaps, c)
  }

  /** What one cycle of the class observes; `found` is what the search returns when it runs. */
  function SeenOf(beaconOn: bool, onGround: bool, teleported: bool, planeX: real, planeY: real, nDone: int,
                  c: Ctx, found: nat): Seen
  {
    Seen(beaconOn, onGround, teleported, planeX, planeY, c.refGen, c.nDoor == 0, found, nDone)
  }

  /** The cycle runs the search: it gets past the beacon and the teleport check in PARKED. */
  predicate Searches(r: Regs, v: Seen)
  {
    r.state != StDisabled && !v.beaconOn && Entered(r, v).state == StParked
  }

  /** The cycle runs the drives: it gets past the beacon in DOCKING or UNDOCKING. */
  predicate Drives(r: Regs, v: Seen)
  {
    r.state != StDisabled && !v.beaconOn && Entered(r, v).state in {StDocking, StUndocking}
  }

  /** The cycle resets the jetways: a teleport from beyond IDLE with the beacon off. */
  predicate Resets(r: Regs, v: Seen)
  {
    r.state != StDisabled && !v.beaconOn && r.state > StIdle && v.teleported
  }

  /**
   * The slots after a cycle that runs no drive, where `fs` are the slots
   * the search leaves: PARKED searches anew (a plane without doors keeps
   * the old slots), a request in CAN_DOCK or in DOCKED on the ground sets
   * out every slot below `n_active_jw`, and everything else leaves them.
   */
  function SlotsAfter(r: Regs, v: Seen, s: seq<Slot>, fs: seq<Slot>, nDoor: int, now: real): (a: seq<Slot>)
    requires |s| == MaxDoor && |fs| == MaxDoor
    ensures |a| == MaxDoor
  {
    if r.state == StDisabled || v.beaconOn then s else ArmedSlots(Entered(r, v), v, s, fs, nDoor, now)
  }

  /** The slots after the `switch` arm of the registers e, outside DOCKING and UNDOCKING. */
  function ArmedSlots(e: Regs, v: Seen, s: seq<Slot>, fs: seq<Slot>, nDoor: int, now: real): (a: seq<Slot>)
    requires |s| == MaxDoor && |fs| == MaxDoor
    ensures |a| == MaxDoor
  {
    if e.state == StParked && nDoor > 0 then fs
    else if e.state == StCanDock && (e.dock || e.toggle) then ArmBelow(s, e.nActive, now)
    else if e.state == StDocked && v.onGround && (e.undock || e.toggle) then ArmBelow(s, e.nActive, now)
    else s
  }

  // ---------------------------------------------------------------------
  // The machine's globals
  // ---------------------------------------------------------------------

  /** The jetway's snapshots are `snaps`, in order. */
  predicate SnapsOf(jws: seq<SamJw>, snaps: seq<JwSnap>)
    reads set j | j in jws
  {
    |snaps| == |jws| && forall k :: 0 <= k < |jws| ==> SnapOf(jws[k]) == snaps[k]
  }

  /** No jetway appears twice in the sceneries' lists. */
  predicate Distinct(jws: seq<SamJw>)
  {
    forall a, b :: 0 <= a < b < |jws| ==> jws[a] != jws[b]
  }

  /** rotate1..3 and the extent are back at their initial values. */
  predicate AtStart(j: SamJw)
    reads j`rotate1, j`rotate2, j`rotate3, j`extent, j`initialRot1, j`initialRot2, j`initialRot3, j`initialExtent
  {
    j.rotate1 == j.initialRot1 && j.rotate2 == j.initialRot2 && j.rotate3 == j.initialRot3 && j.extent == j.initialExtent
  }

  /**
   * The globals of os_jw.c: the state, `n_active_jw` with the fixed array
   * `active_jw`, the three requests the commands set, and the plane's
   * position memorised on parking.
   */
  class LegacyMachine {
    var state: int
    var nActiveJw: int
    var dockRequested: bool
    var undockRequested: bool
    var toggleRequested: bool
    var parkedX: real
    var parkedY: real
    var parkedNgen: nat
    const slots: array<Slot>

    predicate Valid()
      reads this
    {
      slots.Length == MaxDoor && 0 <= nActiveJw <= MaxDoor
    }

    function Registers(): Regs
      reads this
    {
      Regs(state, nActiveJw, dockRequested, undockRequested, toggleRequested, parkedX, parkedY, parkedNgen)
    }

    /** The static initial values: IDLE, no active jetway, no request, zeroed slots. */
    constructor ()
      ensures Valid() && fresh(slots)
      ensures Registers() == Regs(StIdle, 0, false, false, false, 0.0, 0.0, 0)
      ensures slots[..] == seq(MaxDoor, _ => ZeroSlot)
    {
      state, nActiveJw := StIdle, 0;
      dockRequested, undockRequested, toggleRequested := false, false, false;
      parkedX, parkedY, parkedNgen := 0.0, 0.0, 0;
      slots := new Slot[MaxDoor](_ => ZeroSlot);
    }

    /** `reset_jetways`: rotate1..3 and the extent go back to the initial values, and no jetway is active; the wheels are left. */
    method ResetJetways(jws: seq<SamJw>)
      modifies this`nActiveJw, (set j | j in jws)`rotate1, (set j | j in jws)`rotate2
      modifies (set j | j in jws)`rotate3, (set j | j in jws)`extent
      ensures nActiveJw == 0 && forall j :: j in jws ==> AtStart(j)
    {
      var k := 0;
      while k < |jws|
        invariant k <= |jws| && forall i :: 0 <= i < k ==> AtStart(jws[i])
      {
        var j := jws[k];
        j.rotate1, j.rotate2, j.rotate3, j.extent := j.initialRot1, j.initialRot2, j.initialRot3, j.initialExtent;
        k := k + 1;
      }
      nActiveJw := 0;
    }

    /**
     * The first loop of `find_dockable_jws`: the slots are emptied, then
     * every jetway in turn takes its door's slot when it competes and is not
     * farther from the door than the slot's.
     */
    method PickLoop(jws: seq<SamJw>, c: Ctx, ghost snaps: seq<JwSnap>)
      requires Valid() && CtxOk(c, snaps) && SnapsOf(jws, snaps)
      modifies slots
      ensures slots[..] == FirstLoop(snaps, c)
    {
      var es := EntriesOf(jws, c, snaps);
      ClearSlots();
      OfferAll(es);
    }

    /** The slots are emptied. */
    method ClearSlots()
      requires Valid()
      modifies slots
      ensures slots[..] == seq(MaxDoor, _ => EmptySlot)
    {
      var d := 0;
      while d < MaxDoor
        invariant 0 <= d <= MaxDoor && forall i :: 0 <= i < d ==> slots[i] == EmptySlot
      {
        slots[d] := EmptySlot;
        d := d + 1;
      }
    }

    /** What each jetway brings to the first loop, in the order of the jetways. */
    method EntriesOf(jws: seq<SamJw>, c: Ctx, ghost snaps: seq<JwSnap>) returns (es: seq<Entry>)
      requires CtxOk(c, snaps) && SnapsOf(jws, snaps)
      ensures es == Entries(snaps, c)
    {
      es := [];
      var k := 0;
      while k < |jws|
        invariant k <= |jws| && |es| == k && forall i :: 0 <= i < k ==> es[i] == EntryOf(snaps[i], c)
      {
        es := es + [EntryOf(SnapOf(jws[k]), c)];
        k := k + 1;
      }
    }

    /** Every jetway in turn is offered its door's slot. */
    method OfferAll(es: seq<Entry>)
      requires Valid() && EntriesOk(es) && slots[..] == Pick(es, 0)
      modifies slots
      ensures slots[..] == Pick(es, |es|)
    {
      var k := 0;
      while k < |es|
        invariant k <= |es| && slots[..] == Pick(es, k)
      {
        Offer(es, k, es[k]);
        k := k + 1;
      }
    }

    /** Jetway k of the first loop takes its door's slot when it competes and is not farther from the door. */
    method Offer(ghost es: seq<Entry>, k: nat, e: Entry)
      requires Valid() && EntriesOk(es) && k < |es| && e == es[k] && slots[..] == Pick(es, k)
      modifies slots
      ensures slots[..] == Pick(es, k + 1)
    {
      ghost var before := slots[..];
      if e.eligible && e.t.dist <= slots[e.door].t.dist {
        slots[e.door] := Claim(k, e.t);
        assert slots[..] == before[e.door := Claim(k, e.t)];
      }
    }

    /**
     * The sanity check of `find_dockable_jws` over the plane's doors: a slot
     * whose jetway passes is finished, its jetway's wheel height set, and
     * `n_active_jw` becomes its door plus one.
     */
    method SettleLoop(jws: seq<SamJw>, c: Ctx, ghost snaps: seq<JwSnap>)
      requires Valid() && CtxOk(c, snaps) && SnapsOf(jws, snaps) && Distinct(jws)
      requires Placed(snaps, slots[..]) && nActiveJw == 0
      modifies slots, this`nActiveJw, (set j | j in jws)`wheels
      ensures Valid()
      ensures slots[..] == Settle(snaps, c.m, old(slots[..]), c.nDoor)
      ensures nActiveJw == ActiveCount(snaps, old(slots[..]), c.nDoor)
      ensures forall k :: 0 <= k < |jws| ==> (jws[k].wheels ==
        (if Held(snaps, old(slots[..]), k, c.nDoor) then jws[k].WheelsAt(jws[k].rotate3, jws[k].extent, c.m.tanD)
         else old(jws[k].wheels)))
    {
      ghost var s0 := slots[..];
      var i := 0;
      while i < c.nDoor
        invariant 0 <= i <= c.nDoor && Valid() && Placed(snaps, s0)
        invariant slots[..] == Settle(snaps, c.m, s0, i)
        invariant nActiveJw == ActiveCount(snaps, s0, i)
        invariant SnapsOf(jws, snaps)
        invariant forall k :: 0 <= k < |jws| ==> (jws[k].wheels ==
          (if Held(snaps, s0, k, i) then jws[k].WheelsAt(jws[k].rotate3, jws[k].extent, c.m.tanD) else old(jws[k].wheels)))
      {
        ghost var w0 := seq(|jws|, k requires 0 <= k < |jws| => old(jws[k].wheels));
        SettleAt(jws, c, snaps, s0, i, w0);
        i := i + 1;
      }
    }

    /** The sanity check of door i: its slot is finished when its jetway passes, and that jetway's wheel height set. */
    method SettleAt(jws: seq<SamJw>, c: Ctx, ghost snaps: seq<JwSnap>, ghost s0: seq<Slot>, i: int, ghost w0: seq<real>)
      requires Valid() && CtxOk(c, snaps) && SnapsOf(jws, snaps) && Distinct(jws) && Placed(snaps, s0)
      requires 0 <= i < c.nDoor && |w0| == |jws|
      requires slots[..] == Settle(snaps, c.m, s0, i) && nActiveJw == ActiveCount(snaps, s0, i)
      requires forall k :: 0 <= k < |jws| ==> (jws[k].wheels ==
        (if Held(snaps, s0, k, i) then jws[k].WheelsAt(jws[k].rotate3, jws[k].extent, c.m.tanD) else w0[k]))
      modifies slots, this`nActiveJw, (set j | j in jws)`wheels
      ensures Valid() && SnapsOf(jws, snaps)
      ensures slots[..] == Settle(snaps, c.m, s0, i + 1) && nActiveJw == ActiveCount(snaps, s0, i + 1)
      ensures forall k :: 0 <= k < |jws| ==> (jws[k].wheels ==
        (if Held(snaps, s0, k, i + 1) then jws[k].WheelsAt(jws[k].rotate3, jws[k].extent, c.m.tanD) else w0[k]))
    {
      SettleStep(snaps, c.m, s0, i);
      HeldStep(snaps, s0, i);
      var s := slots[i];
      assert s == s0[i];
      if s.jw.Some? {
        var jw := jws[s.jw.value];
        if InLimits(s.t, jw.geom) || s.t.dist < KForgiveDist {
          assert Takes(snaps, s);
          slots[i] := Finish(s, PoseOf(jw), c.m);
          jw.wheels := jw.WheelsAt(jw.rotate3, jw.extent, c.m.tanD);
          nActiveJw := jw.door + 1;
        } else {
          assert !Takes(snaps, s);
        }
      }
    }

    /**
     * `find_dockable_jws`: for a plane without doors it returns 0 and
     * changes nothing; otherwise the slots hold the nearest dockable jetway
     * of each door, finished when it passed the check, the passed jetways'
     * wheel heights are set, and `n_active_jw`, which it returns, is one
     * more than the last door whose jetway passed.
     */
    method FindDockableJws(jws: seq<SamJw>, c: Ctx, ghost snaps: seq<JwSnap>) returns (n: int)
      requires Valid() && CtxOk(c, snaps) && SnapsOf(jws, snaps) && Distinct(jws)
      modifies slots, this`nActiveJw, (set j | j in jws)`wheels
      ensures Valid()
      ensures c.nDoor == 0 ==> n == 0 && nActiveJw == old(nActiveJw) && slots[..] == old(slots[..])
      ensures c.nDoor > 0 ==> slots[..] == Found(snaps, c) && n == nActiveJw == FoundCount(snaps, c)
      ensures forall k :: 0 <= k < |jws| ==> (jws[k].wheels ==
        (if Held(snaps, FirstLoop(snaps, c), k, c.nDoor) then jws[k].WheelsAt(jws[k].rotate3, jws[k].extent, c.m.tanD)
         else old(jws[k].wheels)))
    {
      if c.nDoor == 0 {
        return 0;
      }
      nActiveJw := 0;
      PickLoop(jws, c, snaps);
      FirstLoopPlaced(snaps, c);
      SettleLoop(jws, c, snaps);
      n := nActiveJw;
    }

    /**
     * The slots below `n_active_jw` set out, as the CAN_DOCK and DOCKED
     * arms do on a request: state TO_AP, the last step now, the timeout 50 s
     * ahead.
     */
    method ArmSlots(now: real)
      requires Valid()
      modifies slots
      ensures slots[..] == ArmBelow(old(slots[..]), nActiveJw, now)
    {
      var i := 0;
      while i < nActiveJw
        invariant 0 <= i <= nActiveJw
        invariant forall k :: 0 <= k < MaxDoor ==> slots[k] == (if k < i then Armed(old(slots[k]), now) else old(slots[k]))
      {
        slots[i] := Armed(slots[i], now);
        i := i + 1;
      }
    }

    /**
     * The head of `dock_drive` for slot i and its jetway: a DOCKED slot is
     * done; a slot past its timeout is forced to DOCKED with its jetway at
     * the door targets and is done.  Otherwise nothing changes and the
     * drive's motion step follows.
     */
    method DockDriveGuard(i: int, jw: SamJw, now: real) returns (finished: bool)
      requires Valid() && 0 <= i < MaxDoor
      modifies slots, jw`rotate1, jw`rotate2, jw`rotate3, jw`extent
      ensures finished == (old(slots[i].state) == AjwDocked || now > old(slots[i].timeout))
      ensures old(slots[i].state) != AjwDocked && now > old(slots[i].timeout) ==>
        (slots[..] == old(slots[..])[i := old(slots[i]).(state := AjwDocked)]
         && jw.rotate1 == slots[i].t.tgtRot1 && jw.rotate2 == slots[i].t.tgtRot2
         && jw.rotate3 == slots[i].t.tgtRot3 && jw.extent == slots[i].t.tgtExtent)
      ensures (old(slots[i].state) == AjwDocked || now <= old(slots[i].timeout)) ==>
        (slots[..] == old(slots[..]) && jw.rotate1 == old(jw.rotate1) && jw.rotate2 == old(jw.rotate2)
         && jw.rotate3 == old(jw.rotate3) && jw.extent == old(jw.extent))
    {
      var s := slots[i];
      if s.state == AjwDocked {
        return true;
      }
      if now > s.timeout {
        slots[i] := s.(state := AjwDocked);
        jw.rotate1, jw.rotate2, jw.rotate3, jw.extent := s.t.tgtRot1, s.t.tgtRot2, s.t.tgtRot3, s.t.tgtExtent;
        return true;
      }
      return false;
    }

    /**
     * The head of `undock_drive`: a PARKED slot is done; a slot past its
     * timeout is forced to PARKED with rotate1..3 and the extent at their
     * initial values, the wheels and the wheel base left where they are (the
     * C version has no lock to release).  Otherwise nothing changes and the
     * motion step follows.
     */
    method UndockDriveGuard(i: int, jw: SamJw, now: real) returns (finished: bool)
      requires Valid() && 0 <= i < MaxDoor
      modifies slots, jw`rotate1, jw`rotate2, jw`rotate3, jw`extent
      ensures finished == (old(slots[i].state) == AjwParked || now > old(slots[i].timeout))
      ensures old(slots[i].state) != AjwParked && now > old(slots[i].timeout) ==>
        (slots[..] == old(slots[..])[i := old(slots[i]).(state := AjwParked)] && AtStart(jw))
      ensures (old(slots[i].state) == AjwParked || now <= old(slots[i].timeout)) ==>
        (slots[..] == old(slots[..]) && jw.rotate1 == old(jw.rotate1) && jw.rotate2 == old(jw.rotate2)
         && jw.rotate3 == old(jw.rotate3) && jw.extent == old(jw.extent))
    {
      var s := slots[i];
      if s.state == AjwParked {
        return true;
      }
      if now > s.timeout {
        slots[i] := s.(state := AjwParked);
        jw.rotate1, jw.rotate2, jw.rotate3, jw.extent := jw.initialRot1, jw.initialRot2, jw.initialRot3, jw.initialExtent;
        return true;
      }
      return false;
    }

    /**
     * `jw_state_machine`, one call.  The registers and the returned delay
     * are those of `Cycle`, where `found` is what `find_dockable_jws`
     * returned when the cycle searched; a teleport from beyond IDLE resets
     * every jetway; outside DOCKING and UNDOCKING the slots are as
     * `SlotsAfter` says, with `fs` the slots the search left.  `nDone` is
     * the number of drives that reported done this cycle.
     */
    method JwStateMachine(jws: seq<SamJw>, c: Ctx, ghost snaps: seq<JwSnap>, beaconOn: bool, onGround: bool,
                          teleported: bool, planeX: real, planeY: real, nDone: int, now: real)
      returns (delay: real, ghost found: nat, ghost fs: seq<Slot>)
      requires Valid() && CtxOk(c, snaps) && SnapsOf(jws, snaps) && Distinct(jws)
      modifies this, slots, (set j | j in jws)`rotate1, (set j | j in jws)`rotate2
      modifies (set j | j in jws)`rotate3, (set j | j in jws)`extent, (set j | j in jws)`wheels
      ensures Valid() && |fs| == MaxDoor
      ensures Searches(old(Registers()), SeenOf(beaconOn, onGround, teleported, planeX, planeY, nDone, c, found)) ==>
        found == FoundOrZero(snaps, c) && (c.nDoor > 0 ==> fs == Found(snaps, c))
      ensures (Registers(), delay) == Cycle(old(Registers()), SeenOf(beaconOn, onGround, teleported, planeX, planeY, nDone, c, found))
      ensures !Drives(old(Registers()), SeenOf(beaconOn, onGround, teleported, planeX, planeY, nDone, c, found)) ==>
        slots[..] == SlotsAfter(old(Registers()), SeenOf(beaconOn, onGround, teleported, planeX, planeY, nDone, c, found),
                                old(slots[..]), fs, c.nDoor, now)
      ensures Resets(old(Registers()), SeenOf(beaconOn, onGround, teleported, planeX, planeY, nDone, c, found)) ==>
        forall j :: j in jws ==> AtStart(j)
    {
      found, fs := 0, slots[..];
      ghost var r0 := Registers();
      if state == StDisabled {
        return 2.0, found, fs;
      }
      if beaconOn {
        return 0.5, found, fs;
      }
      if state > StIdle && teleported {
        state := StIdle;
        ResetJetways(jws);
      }
      assert Registers() == Entered(r0, SeenOf(beaconOn, onGround, teleported, planeX, planeY, nDone, c, 0));
      delay, found, fs := Proceed(jws, c, snaps, onGround, planeX, planeY, nDone, now);
    }

    /**
     * The rest of `jw_state_machine` once the beacon is off and the
     * teleport check is done: the `switch` from the current registers, the
     * requests cleared, and the delay.
     */
    method Proceed(jws: seq<SamJw>, c: Ctx, ghost snaps: seq<JwSnap>, onGround: bool, planeX: real, planeY: real,
                   nDone: int, now: real) returns (delay: real, ghost found: nat, ghost fs: seq<Slot>)
      requires Valid() && CtxOk(c, snaps) && Distinct(jws) && state != StDisabled
      requires state == StParked ==> SnapsOf(jws, snaps)
      modifies this`state, this`nActiveJw, this`dockRequested, this`undockRequested, this`toggleRequested
      modifies this`parkedX, this`parkedY, this`parkedNgen, slots, (set j | j in jws)`wheels
      ensures Valid() && |fs| == MaxDoor
      ensures old(state) == StParked ==> found == FoundOrZero(snaps, c) && (c.nDoor > 0 ==> fs == Found(snaps, c))
      ensures (Registers(), delay) == CycleEnd(old(Registers()), Arm(old(Registers()), SeenOf(false, onGround, false, planeX, planeY, nDone, c, found)))
      ensures !(old(state) in {StDocking, StUndocking}) ==>
        slots[..] == ArmedSlots(old(Registers()), SeenOf(false, onGround, false, planeX, planeY, nDone, c, found),
                                old(slots[..]), fs, c.nDoor, now)
      ensures forall j :: j in jws && old(AtStart(j)) ==> AtStart(j)
    {
      var wait, newState := false, state;
      found, fs := 0, slots[..];
      if state == StIdle {
        newState := IdleArm(onGround, planeX, planeY, c.refGen);
      } else {
        wait, newState, found, fs := RunArm(jws, c, snaps, onGround, nDone, now);
      }
      delay := Conclude(wait, newState);
    }

    /** The IDLE arm: on the ground the plane's position and the reference generation are recorded and the state becomes PARKED. */
    method IdleArm(onGround: bool, planeX: real, planeY: real, refGen: nat) returns (newState: int)
      requires state == StIdle
      modifies this`parkedX, this`parkedY, this`parkedNgen
      ensures Registers().(state := newState) ==
        Arm(old(Registers()), Seen(false, onGround, false, planeX, planeY, refGen, false, 0, 0)).r
    {
      newState := state;
      if onGround {
        parkedX, parkedY, parkedNgen := planeX, planeY, refGen;
        newState := StParked;
      }
    }

    /** After the `switch`: a wait returns at once, otherwise the requests are cleared and the state takes `newState`. */
    method Conclude(wait: bool, newState: int) returns (delay: real)
      modifies this`state, this`dockRequested, this`undockRequested, this`toggleRequested
      ensures (Registers(), delay) == CycleEnd(old(Registers()), if wait then Wait else Go(old(Registers()).(state := newState)))
    {
      if wait {
        return AnimInterval;
      }
      dockRequested, undockRequested, toggleRequested := false, false, false;
      if newState != state {
        state := newState;
        return -1.0;
      }
      return 0.5;
    }

    /**
     * The `switch` of `jw_state_machine` for a state other than IDLE: the
     * registers other than the state, and the new state, are those of
     * `Arm`; a drive that is not done makes it wait.
     */
    method RunArm(jws: seq<SamJw>, c: Ctx, ghost snaps: seq<JwSnap>, onGround: bool, nDone: int, now: real)
      returns (wait: bool, newState: int, ghost found: nat, ghost fs: seq<Slot>)
      requires Valid() && CtxOk(c, snaps) && Distinct(jws) && state != StIdle
      requires state == StParked ==> SnapsOf(jws, snaps)
      modifies this`nActiveJw, slots, (set j | j in jws)`wheels
      ensures Valid() && |fs| == MaxDoor
      ensures old(state) == StParked ==> found == FoundOrZero(snaps, c) && (c.nDoor > 0 ==> fs == Found(snaps, c))
      ensures wait == Arm(old(Registers()), SeenOf(false, onGround, false, 0.0, 0.0, nDone, c, found)).Wait?
      ensures wait ==> Registers() == old(Registers())
      ensures !wait ==> Registers().(state := newState) == Arm(old(Registers()), SeenOf(false, onGround, false, 0.0, 0.0, nDone, c, found)).r
      ensures !(old(state) in {StDocking, StUndocking}) ==>
        slots[..] == ArmedSlots(old(Registers()), SeenOf(false, onGround, false, 0.0, 0.0, nDone, c, found), old(slots[..]), fs, c.nDoor, now)
      ensures forall j :: j in jws && old(AtStart(j)) ==> AtStart(j)
    {
      wait, newState := false, state;
      found, fs := 0, slots[..];
      if state == StParked {
        newState, found, fs := ParkedArm(jws, c, snaps);
      } else {
        wait, newState := OtherArm(onGround, nDone, now, SeenOf(false, onGround, false, 0.0, 0.0, nDone, c, found));
      }
    }

    /** The `switch` of `jw_state_machine` for a state beyond PARKED, which neither searches nor reads the plane's doors. */
    method OtherArm(onGround: bool, nDone: int, now: real, ghost v: Seen) returns (wait: bool, newState: int)
      requires Valid() && state != StIdle && state != StParked
      requires v.onGround == onGround && !v.beaconOn && v.nDone == nDone
      modifies slots
      ensures wait == Arm(old(Registers()), v).Wait?
      ensures !wait ==> Registers().(state := newState) == Arm(old(Registers()), v).r
      ensures !(old(state) in {StDocking, StUndocking}) ==>
        slots[..] == ArmedSlots(old(Registers()), v, old(slots[..]), slots[..], 0, now)
    {
      wait, newState := false, state;
      if state == StCanDock {
        newState := RequestArm(dockRequested || toggleRequested, StDocking, now);
      } else if state == StCantDock {
        if !onGround {
          newState := StIdle;
        }
      } else if state == StDocking {
        if nDone == nActiveJw {
          newState := StDocked;
        } else {
          wait := true;
        }
      } else if state == StDocked {
        if !onGround {
          newState := StIdle;
        } else {
          newState := RequestArm(undockRequested || toggleRequested, StUndocking, now);
        }
      } else if state == StUndocking {
        if nDone == nActiveJw {
          newState := StIdle;
        } else {
          wait := true;
        }
      } else {
        newState := StDisabled;
      }
    }

    /** The PARKED arm: `find_dockable_jws` decides between CAN_DOCK and CANT_DOCK. */
    method ParkedArm(jws: seq<SamJw>, c: Ctx, ghost snaps: seq<JwSnap>) returns (newState: int, ghost found: nat, ghost fs: seq<Slot>)
      requires Valid() && CtxOk(c, snaps) && SnapsOf(jws, snaps) && Distinct(jws)
      modifies slots, this`nActiveJw, (set j | j in jws)`wheels
      ensures Valid() && found == FoundOrZero(snaps, c) && |fs| == MaxDoor
      ensures c.nDoor > 0 ==> fs == Found(snaps, c)
      ensures newState == (if c.nDoor > 0 && found > 0 then StCanDock else StCantDock)
      ensures nActiveJw == (if c.nDoor == 0 then old(nActiveJw) else found)
      ensures slots[..] == (if c.nDoor > 0 then fs else old(slots[..]))
    {
      var n := FindDockableJws(jws, c, snaps);
      newState := if n > 0 then StCanDock else StCantDock;
      found := n;
      fs := if c.nDoor > 0 then slots[..] else Found(snaps, c);
    }

    /**
     * The CAN_DOCK and DOCKED arms on the ground: on a request every slot
     * below `n_active_jw` sets out, and the state moves to `target` when
     * there is one.
     */
    method RequestArm(requested: bool, target: int, now: real) returns (newState: int)
      requires Valid()
      modifies slots
      ensures newState == (if requested && nActiveJw > 0 then target else state)
      ensures slots[..] == (if requested then ArmBelow(old(slots[..]), nActiveJw, now) else old(slots[..]))
    {
      newState := state;
      if requested {
        ArmSlots(now);
        if nActiveJw > 0 {
          newState := target;
        }
      }
    }
  }
}
