/**
 * jwctrl.cpp: the jetway controller, the glue between a plane's doors and
 * the SAM jetways.  It picks candidate jetways for a plane, orders them,
 * checks two jetways for a collision, and drives a jetway to the door and
 * back in phases by updating the animation values of its `SamJw`.
 *
 * Floats are reals.  Square root, trigonometry in degrees and the factor
 * 1/D2R that turns radians into degrees are the inputs `Math`; the clock
 * `now` is a parameter.  The alert sound is left out.
 */
module JwCtrls {
  import opened Wrappers
  import opened OpenSamH
  import opened Strings
  import opened SamJws
  import Seasons

  const KDriveSpeed: real := 1.0    // m/s
  const KTurnSpeed: real := 10.0    // degrees/s
  const KHeightSpeed: real := 0.1   // m/s
  const KAnimTimeout: real := 50.0  // s
  const KAlignDist: real := 1.0     // m abeam the door

  /** `sqrtf`, sine, cosine, tangent and atan2 in degrees, and 1/D2R. */
  datatype Math = Math(sqrt: real -> real, sinD: real -> real, cosD: real -> real, tanD: real -> real,
                       atan2D: (real, real) -> real, degPerRad: real)

  /** `len2f`. */
  function Len2(m: Math, x: real, y: real): real
  {
    m.sqrt(x * x + y * y)
  }

  /**
   * A float division.  Division by zero, which yields an infinity or NaN in
   * IEEE arithmetic, reads 0 here.
   */
  function Div(a: real, b: real): real
  {
    if b == 0.0 then 0.0 else a / b
  }

  /** The plane's position and true heading. */
  datatype PlanePose = PlanePose(x: real, y: real, z: real, psi: real)

  /** A door's position in the plane's frame. */
  type DoorInfo = Seasons.DoorInfo

  datatype JwCtrlState = Parked | ToAp | AtAp | ToDoor | Docked | ToPark

  /** The position of a state in the docking sequence TO_AP, AT_AP, TO_DOOR, DOCKED (0 for the others). */
  function DockRank(s: JwCtrlState): int
  {
    match s
    case ToAp => 1
    case AtAp => 2
    case ToDoor => 3
    case Docked => 4
    case _ => 0
  }

  /** The position of a state in the undocking sequence TO_AP, AT_AP, TO_PARK, PARKED (0 for the others). */
  function UndockRank(s: JwCtrlState): int
  {
    match s
    case ToAp => 1
    case AtAp => 2
    case ToPark => 3
    case Parked => 4
    case _ => 0
  }

  // ---------------------------------------------------------------------
  // The fuzzy comparator
  // ---------------------------------------------------------------------

  /** What `operator<` compares: the jetway's height and the controller's door-frame z and x. */
  datatype SortKey = SortKey(height: real, z: real, x: real)

  /**
   * `operator<` as written: height first (1 m tolerance), then z (0.5 m
   * tolerance), then the larger x first; equal keys compare as true.
   */
  function Less(a: SortKey, b: SortKey): bool
  {
    if a.height < b.height - 1.0 then true
    else if a.height > b.height + 1.0 then false
    else if a.z < b.z - 0.5 then true
    else if a.z > b.z + 0.5 then false
    else if a.x < b.x then false
    else if a.x > b.x then true
    else true
  }

  /** As written every key is less than itself, so the comparator is no strict weak ordering for `std::sort`. */
  lemma LessReflexive(a: SortKey)
    ensures Less(a, a)
  {
  }

  /** The evidently intended comparator: equal keys compare as false. */
  function LessFixed(a: SortKey, b: SortKey): bool
  {
    if a.height < b.height - 1.0 then true
    else if a.height > b.height + 1.0 then false
    else if a.z < b.z - 0.5 then true
    else if a.z > b.z + 0.5 then false
    else a.x > b.x
  }

  /** The corrected comparator is irreflexive and asymmetric, and differs from the written one only on equal x within tolerance. */
  lemma LessFixedStrict(a: SortKey, b: SortKey)
    ensures !LessFixed(a, a)
    ensures LessFixed(a, b) ==> !LessFixed(b, a)
    ensures LessFixed(a, b) != Less(a, b) <==>
      b.height - 1.0 <= a.height <= b.height + 1.0 && b.z - 0.5 <= a.z <= b.z + 0.5 && a.x == b.x
  {
  }

  // ---------------------------------------------------------------------
  // Collision check
  // ---------------------------------------------------------------------

  /** `det` of the column vectors (x1, x2) and (y1, y2). */
  function Det(x1: real, x2: real, y1: real, y2: real): real
  {
    x1 * y2 - x2 * y1
  }

  /**
   * The linear system `collision_check` solves: s·A + t·B = C with
   * A = E1 − S1 (start of jetway 1 to its extended end at the door),
   * B = −(P2 − S2) (start of jetway 2 to its parked end, negated) and
   * C = S2 − S1; all in the door frame, where the door's z is 0.
   */
  datatype Segments = Segments(a1: real, a2: real, b1: real, b2: real, c1: real, c2: real)

  function SegmentsOf(doorX: real, x1: real, z1: real, parkedX2: real, parkedZ2: real, x2: real, z2: real): Segments
  {
    Segments(doorX - x1, -z1, -(parkedX2 - x2), -(parkedZ2 - z2), x2 - x1, z2 - z1)
  }

  /** Cramer's rule for s and t, or None when |det| < 0.2 (nearly parallel). */
  function Solve(g: Segments): Option<(real, real)>
  {
    var d := Det(g.a1, g.a2, g.b1, g.b2);
    if Abs(d) < 0.2 then None
    else Some((Det(g.c1, g.c2, g.b1, g.b2) / d, Det(g.a1, g.a2, g.c1, g.c2) / d))
  }

  /** `collision_check`: a collision iff the segments are not nearly parallel and both parameters lie in [0, 1]. */
  function Collides(g: Segments): bool
  {
    match Solve(g)
    case None => false
    case Some((s, t)) => Between(t, 0.0, 1.0) && Between(s, 0.0, 1.0)
  }

  /**
   * The parameters `collision_check` computes solve the system: the point
   * s of the way along jetway 1's path is the point t of the way along
   * jetway 2's, so a collision means the two paths cross.
   */
  lemma SolveSolves(g: Segments)
    requires Solve(g).Some?
    ensures var (s, t) := Solve(g).value;
      s * g.a1 + t * g.b1 == g.c1 && s * g.a2 + t * g.b2 == g.c2
  {
    var d := Det(g.a1, g.a2, g.b1, g.b2);
    var ns := Det(g.c1, g.c2, g.b1, g.b2);
    var nt := Det(g.a1, g.a2, g.c1, g.c2);
    assert ns * g.a1 + nt * g.b1 == g.c1 * d;
    assert ns * g.a2 + nt * g.b2 == g.c2 * d;
    CramerRow(ns, nt, d, g.a1, g.b1, g.c1);
    CramerRow(ns, nt, d, g.a2, g.b2, g.c2);
  }

  /** Dividing one row of the multiplied-out system by the determinant. */
  lemma CramerRow(ns: real, nt: real, d: real, a: real, b: real, c: real)
    requires d != 0.0 && ns * a + nt * b == c * d
    ensures (ns / d) * a + (nt / d) * b == c
  {
    assert (ns / d) * a + (nt / d) * b == (ns * a + nt * b) / d;
  }

  /** A collision is reported exactly when the solution exists and both parameters lie in [0, 1]. */
  lemma CollidesMeaning(g: Segments)
    ensures Collides(g) <==>
      (Abs(Det(g.a1, g.a2, g.b1, g.b2)) >= 0.2 && 0.0 <= Solve(g).value.0 <= 1.0 && 0.0 <= Solve(g).value.1 <= 1.0)
  {
  }

  // ---------------------------------------------------------------------
  // Dataref values for a tunnel end, and the door set-up
  // ---------------------------------------------------------------------

  /**
   * `xz_to_sam_dr`: the rotate1, extent, rotate2 and rotate3 that put the
   * tunnel end at (cx, cz), for a jetway at (x, z) with heading psi and
   * height y in the door frame.  rotate2 turns the cabin back to door-frame
   * heading 0, square to the fuselage.
   */
  function XzToSamDr(x: real, z: real, psi: real, y: real, g: Geometry, cx: real, cz: real, m: Math): (r: (real, real, real, real))
    ensures -180.0 < r.0 <= 180.0 && -180.0 < r.2 <= 180.0
    ensures r.1 == Len2(m, cx - x, cz - z) - g.cabinPos
  {
    var dist := Len2(m, cx - x, cz - z);
    var rot1 := RA(m.atan2D(cz - z, cx - x) + 90.0 - psi);
    var r2 := RA(0.0 + 90.0 - psi - rot1);
    var netLength := dist + g.cabinLength * m.cosD(r2);
    (rot1, dist - g.cabinPos, r2, -m.atan2D(y, netLength))
  }

  /** rotate1 plus rotate2 is the door-frame heading 90 − psi up to whole turns, so the cabin ends square to the fuselage. */
  lemma XzToSamDrSquare(x: real, z: real, psi: real, y: real, g: Geometry, cx: real, cz: real, m: Math)
    ensures var r := XzToSamDr(x, z, psi, y, g, cx, cz, m);
      r.0 + r.2 == 90.0 - psi - Turns(90.0 - psi - r.0) as real * 360.0
  {
    var r := XzToSamDr(x, z, psi, y, g, cx, cz, m);
    RAWholeTurns(0.0 + 90.0 - psi - r.0);
  }

  /** What `setup_for_door` computes for a jetway, the plane and a door. */
  datatype DoorSetup = DoorSetup(x: real, z: real, psi: real, y: real, cabinX: real, cabinZ: real,
                                 doorX: real, doorRot1: real, doorRot2: real, doorRot3: real, doorExtent: real,
                                 parkedX: real, parkedZ: real, apX: real)

  /** The part of a jetway's state that `setup_for_door` reads. */
  datatype JwPose = JwPose(x: real, z: real, y: real, psi: real, initialRot1: real, extent: real,
                           initialExtent: real, geom: Geometry)

  function PoseOf(jw: SamJw): JwPose
    reads jw`x, jw`z, jw`y, jw`psi, jw`initialRot1, jw`extent, jw`initialExtent, jw`geom
  {
    JwPose(jw.x, jw.z, jw.y, jw.psi, jw.initialRot1, jw.extent, jw.initialExtent, jw.geom)
  }

  /**
   * `setup_for_door`: the jetway's position rotated into the plane's frame
   * and moved to the door; the current and the parked tunnel end; the
   * dataref values at the door, where the tunnel end is one cabin length
   * ahead of the door; the alignment point 1 m before that.
   */
  function SetupFor(jw: SamJw, plane: PlanePose, di: DoorInfo, m: Math): (s: DoorSetup)
    reads jw`x, jw`z, jw`y, jw`psi, jw`initialRot1, jw`extent, jw`initialExtent, jw`geom
    ensures s.doorX == -jw.geom.cabinLength && s.apX == s.doorX - KAlignDist
    ensures -180.0 < s.psi <= 180.0 && -180.0 < s.doorRot1 <= 180.0 && -180.0 < s.doorRot2 <= 180.0
    ensures s.y == (jw.y + jw.geom.height) - (plane.y + di.y)
  {
    SetupFrom(PoseOf(jw), plane, di, m)
  }

  /** `setup_for_door` on the jetway pose `p`. */
  function SetupFrom(p: JwPose, plane: PlanePose, di: DoorInfo, m: Math): (s: DoorSetup)
    ensures s.doorX == -p.geom.cabinLength && s.apX == s.doorX - KAlignDist
    ensures -180.0 < s.psi <= 180.0 && -180.0 < s.doorRot1 <= 180.0 && -180.0 < s.doorRot2 <= 180.0
    ensures s.y == (p.y + p.geom.height) - (plane.y + di.y)
  {
    var dx := p.x - plane.x;
    var dz := p.z - plane.z;
    var sinPsi := m.sinD(plane.psi);
    var cosPsi := m.cosD(plane.psi);
    var x := cosPsi * dx + sinPsi * dz - di.x;
    var z := -sinPsi * dx + cosPsi * dz - di.z;
    var psi := RA(p.psi - plane.psi);
    var doorX := -p.geom.cabinLength;
    var y := (p.y + p.geom.height) - (plane.y + di.y);
    var dr := XzToSamDr(x, z, psi, y, p.geom, doorX, 0.0, m);
    var e := TunnelEnds(x, z, psi, p, m);
    DoorSetup(x, z, psi, y, e.2, e.3, doorX, dr.0, dr.2, dr.3, dr.1, e.0, e.1, doorX - KAlignDist)
  }

  /**
   * The parked and the current tunnel end of a jetway at (x, z) with
   * heading psi in the door frame: on the line of its initial rotate1, at
   * the initial and at the current extent past the cabin position.
   */
  function TunnelEnds(x: real, z: real, psi: real, p: JwPose, m: Math): (r: (real, real, real, real))
  {
    var rot1d := RA((p.initialRot1 + psi) - 90.0);
    var reach := p.extent + p.geom.cabinPos;
    var park := p.initialExtent + p.geom.cabinPos;
    (x + park * m.cosD(rot1d), z + park * m.sinD(rot1d), x + reach * m.cosD(rot1d), z + reach * m.sinD(rot1d))
  }

  // ---------------------------------------------------------------------
  // Small steps of the animation
  // ---------------------------------------------------------------------

  /** The wheel base turn still to do: RA(wbRot − wheelrotatec), folded into [−90, 90] since the base may run either way. */
  function WbDelta(wbRot: real, c: real): (d: real)
    ensures -90.0 <= d <= 90.0
  {
    var d := RA(wbRot - c);
    if d > 90.0 then d - 180.0 else if d < -90.0 then d + 180.0 else d
  }

  /** The number of half turns `WbDelta` drops. */
  function WbHalfTurns(wbRot: real, c: real): int
  {
    var d := RA(wbRot - c);
    2 * Turns(wbRot - c) + (if d > 90.0 then 1 else if d < -90.0 then -1 else 0)
  }

  /** Turning by `WbDelta` lines the wheel base up with wbRot up to half turns. */
  lemma WbDeltaAligns(wbRot: real, c: real)
    ensures c + WbDelta(wbRot, c) == wbRot - WbHalfTurns(wbRot, c) as real * 180.0
  {
    RAWholeTurns(wbRot - c);
  }

  /** One wheel base step: at most dt·10 degrees toward the target while more than 2 degrees remain, else the rest. */
  function WbStep(d: real, dt: real): real
  {
    if Abs(d) > 2.0 then (if d < 0.0 then -(dt * KTurnSpeed) else dt * KTurnSpeed) else d
  }

  /** The wheel turn for a wheel base turn of dRot degrees: the wheels roll on a circle of the wheel distance. */
  function WheelSpread(dRot: real, g: Geometry): real
  {
    dRot * Div(g.wheelDistance, g.wheelDiameter)
  }

  /** One rotate2 step toward the target: dt·10 degrees, clamped at the target; within 0.5 it snaps. */
  function Rot2Step(cur: real, tgt: real, dt: real): real
  {
    if Abs(cur - tgt) > 0.5 then
      (if cur >= tgt then Max(cur - dt * KTurnSpeed, tgt) else Min(cur + dt * KTurnSpeed, tgt))
    else tgt
  }

  /** One rotate3 step toward the target by `step`, clamped at the target; no step within 0.1. */
  function Rot3Step(cur: real, tgt: real, step: real): real
  {
    if Abs(cur - tgt) > 0.1 then
      (if cur >= tgt then Max(cur - step, tgt) else Min(cur + step, tgt))
    else cur
  }

  /** A rotation step for a non-negative time never overshoots: it stays between the old value and the target. */
  lemma StepsNoOvershoot(cur: real, tgt: real, dt: real, step: real)
    requires dt >= 0.0 && step >= 0.0
    ensures Min(cur, tgt) <= Rot2Step(cur, tgt, dt) <= Max(cur, tgt)
    ensures Abs(Rot2Step(cur, tgt, dt) - cur) <= Max(dt * KTurnSpeed, 0.5)
    ensures Min(cur, tgt) <= Rot3Step(cur, tgt, step) <= Max(cur, tgt)
    ensures Abs(Rot3Step(cur, tgt, step) - cur) <= step
  {
  }

  /** Repeated rotate2 steps of a fixed positive time reach the target: each step ends within 0.5 or moves by dt·10. */
  lemma Rot2Progress(cur: real, tgt: real, dt: real)
    requires dt > 0.0
    ensures Abs(Rot2Step(cur, tgt, dt) - tgt) <= 0.5 || Abs(Rot2Step(cur, tgt, dt) - tgt) == Abs(cur - tgt) - dt * KTurnSpeed
  {
  }

  // ---------------------------------------------------------------------
  // Candidate jetways for a plane
  // ---------------------------------------------------------------------

  /** What `filter_candidates` makes of a jetway: passed over, or taken (soft when outside its sam.xml limits). */
  datatype Verdict = Skip | Take(soft: bool)
  {
    /** Taken as a soft match. */
    predicate Soft()
    {
      Take? && soft
    }
  }

  /** On the right side of the plane, pointing away, or more than 80 m off in x or z. */
  predicate OutOfReach(s: DoorSetup, initialRot1: real)
  {
    s.x > 1.0 || Between(RA(s.psi + initialRot1), -130.0, 20.0) || s.x < -80.0 || Abs(s.z) > 80.0
  }

  /** The door values fulfil the min/max limits of sam.xml. */
  predicate WithinLimits(s: DoorSetup, g: Geometry)
  {
    Between(s.doorRot1, g.minRot1, g.maxRot1) && Between(s.doorRot2, g.minRot2, g.maxRot2)
    && Between(s.doorExtent, g.minExtent, g.maxExtent)
  }

  /**
   * The filters of `filter_candidates`: a jetway from an older reference
   * generation or a locked one is skipped, so is one out of reach; one
   * outside its limits is still taken, as a soft match, when it needs less
   * than 10 m more extent than its maximum.
   */
  function Judge(visible: bool, locked: bool, s: DoorSetup, initialRot1: real, g: Geometry): (v: Verdict)
    ensures v.Take? ==> visible && !locked && -80.0 <= s.x <= 1.0 && Abs(s.z) <= 80.0
    ensures v.Take? ==> !Between(RA(s.psi + initialRot1), -130.0, 20.0) && s.doorExtent - g.maxExtent < 10.0
    ensures v.Take? ==> (v.soft <==> !WithinLimits(s, g))
    ensures visible && !locked && !OutOfReach(s, initialRot1) && WithinLimits(s, g) ==> v == Take(false)
    ensures visible && !locked && !OutOfReach(s, initialRot1) && s.doorExtent - g.maxExtent < 10.0 ==> v.Take?
  {
    if !visible || locked then Skip
    else if OutOfReach(s, initialRot1) then Skip
    else if !WithinLimits(s, g) then (if s.doorExtent - g.maxExtent < 10.0 then Take(true) else Skip)
    else Take(false)
  }

  /** The verdict on a jetway for a plane's door in reference generation `refGen`. */
  function VerdictOf(j: SamJw, plane: PlanePose, di: DoorInfo, refGen: nat, m: Math): Verdict
    reads j
  {
    Judge(j.objRefGen >= refGen, j.locked, SetupFor(j, plane, di, m), j.initialRot1, j.geom)
  }

  /**
   * A tentative controller `filter_candidates` keeps: `JwCtrl` is a value
   * type, and a kept one is the jetway, its door set-up and the soft-match
   * flag (the rest of it is still zero).
   */
  datatype Candidate = Candidate(jw: SamJw, setup: DoorSetup, soft: bool)

  /** The candidate `filter_candidates` keeps for a jetway it takes. */
  function MakeCandidate(j: SamJw, plane: PlanePose, di: DoorInfo, refGen: nat, m: Math): Candidate
    reads j
  {
    Candidate(j, SetupFor(j, plane, di, m), VerdictOf(j, plane, di, refGen, m).Soft())
  }

  /** The candidates `filter_candidates` keeps from a list, in list order. */
  function Candidates(jws: seq<SamJw>, plane: PlanePose, di: DoorInfo, refGen: nat, m: Math): (r: seq<Candidate>)
    reads jws
    ensures |r| <= |jws|
  {
    if jws == [] then []
    else
      Candidates(jws[..|jws| - 1], plane, di, refGen, m) + Picked(jws[|jws| - 1], plane, di, refGen, m)
  }

  /** What one jetway adds to the candidate list: itself with its set-up when it is taken, nothing otherwise. */
  function Picked(j: SamJw, plane: PlanePose, di: DoorInfo, refGen: nat, m: Math): (r: seq<Candidate>)
    reads j
    ensures |r| <= 1
  {
    if VerdictOf(j, plane, di, refGen, m).Take? then [MakeCandidate(j, plane, di, refGen, m)] else []
  }

  /** The jetways of a list of candidates. */
  function JwsOf(cs: seq<Candidate>): (r: seq<SamJw>)
    ensures |r| == |cs|
  {
    seq(|cs|, k requires 0 <= k < |cs| => cs[k].jw)
  }

  /** Every candidate kept is one the filters take from the list, set up for the door. */
  lemma {:induction false} CandidatesSound(jws: seq<SamJw>, k: nat, plane: PlanePose, di: DoorInfo, refGen: nat, m: Math)
    requires k < |Candidates(jws, plane, di, refGen, m)|
    ensures var c := Candidates(jws, plane, di, refGen, m)[k];
      c.jw in jws && VerdictOf(c.jw, plane, di, refGen, m).Take? && c == MakeCandidate(c.jw, plane, di, refGen, m)
  {
    var init := jws[..|jws| - 1];
    var ci := Candidates(init, plane, di, refGen, m);
    if k < |ci| {
      CandidatesSound(init, k, plane, di, refGen, m);
      assert ci[k].jw in init;
    }
  }

  /** Every jetway the filters take is kept. */
  lemma {:induction false} CandidatesComplete(jws: seq<SamJw>, j: SamJw, plane: PlanePose, di: DoorInfo, refGen: nat, m: Math)
    requires j in jws && VerdictOf(j, plane, di, refGen, m).Take?
    ensures j in JwsOf(Candidates(jws, plane, di, refGen, m))
  {
    var init := jws[..|jws| - 1];
    var c := Candidates(jws, plane, di, refGen, m);
    if j == jws[|jws| - 1] {
      assert JwsOf(c)[|c| - 1] == j;
    } else {
      assert j in init;
      CandidatesComplete(init, j, plane, di, refGen, m);
      var ci := Candidates(init, plane, di, refGen, m);
      var k :| 0 <= k < |ci| && JwsOf(ci)[k] == j;
      assert c[k] == ci[k];
      assert JwsOf(c)[k] == j;
    }
  }

  /** Filtering two lists one after the other keeps what filtering each keeps, in order. */
  lemma {:induction false} CandidatesConcat(a: seq<SamJw>, b: seq<SamJw>, plane: PlanePose, di: DoorInfo, refGen: nat, m: Math)
    ensures Candidates(a + b, plane, di, refGen, m) == Candidates(a, plane, di, refGen, m) + Candidates(b, plane, di, refGen, m)
  {
    if b == [] {
      assert a + b == a;
    } else {
      var b0 := b[..|b| - 1];
      var last := b[|b| - 1];
      assert (a + b)[..|a + b| - 1] == a + b0;
      assert (a + b)[|a + b| - 1] == last;
      var x := Picked(last, plane, di, refGen, m);
      assert Candidates(b, plane, di, refGen, m) == Candidates(b0, plane, di, refGen, m) + x;
      assert Candidates(a + b, plane, di, refGen, m) == Candidates(a + b0, plane, di, refGen, m) + x;
      CandidatesConcat(a, b0, plane, di, refGen, m);
    }
  }

  /** A jetway is kept at most as often as the list holds it. */
  lemma {:induction false} CandidatesSub(jws: seq<SamJw>, plane: PlanePose, di: DoorInfo, refGen: nat, m: Math)
    ensures multiset(JwsOf(Candidates(jws, plane, di, refGen, m))) <= multiset(jws)
  {
    if jws != [] {
      var init := jws[..|jws| - 1];
      CandidatesSub(init, plane, di, refGen, m);
      CandidatesStep(jws, plane, di, refGen, m);
      SubStep(multiset(JwsOf(Candidates(jws, plane, di, refGen, m))), multiset(JwsOf(Candidates(init, plane, di, refGen, m))),
        multiset(init), multiset{jws[|jws| - 1]});
      MultisetSplit(jws);
    }
  }

  /** The jetways kept from a list are at most those kept from all but its last, and its last. */
  lemma CandidatesStep(jws: seq<SamJw>, plane: PlanePose, di: DoorInfo, refGen: nat, m: Math)
    requires jws != []
    ensures multiset(JwsOf(Candidates(jws, plane, di, refGen, m)))
      <= multiset(JwsOf(Candidates(jws[..|jws| - 1], plane, di, refGen, m))) + multiset{jws[|jws| - 1]}
  {
    var last := jws[|jws| - 1];
    JwsOfConcat(Candidates(jws[..|jws| - 1], plane, di, refGen, m), Picked(last, plane, di, refGen, m));
    if VerdictOf(last, plane, di, refGen, m).Take? {
      assert JwsOf(Picked(last, plane, di, refGen, m)) == [last];
    } else {
      assert JwsOf(Picked(last, plane, di, refGen, m)) == [];
    }
  }

  /** A list's multiset is that of all but its last, and its last. */
  lemma MultisetSplit<T>(s: seq<T>)
    requires s != []
    ensures multiset(s) == multiset(s[..|s| - 1]) + multiset{s[|s| - 1]}
  {
    assert s == s[..|s| - 1] + [s[|s| - 1]];
  }

  /** Sub-multisets chain through an added part. */
  lemma SubStep<T>(c: multiset<T>, a: multiset<T>, i: multiset<T>, x: multiset<T>)
    requires a <= i && c <= a + x
    ensures c <= i + x
  {
  }

  /** The jetways of two candidate lists, one after the other. */
  lemma JwsOfConcat(a: seq<Candidate>, b: seq<Candidate>)
    ensures JwsOf(a + b) == JwsOf(a) + JwsOf(b)
  {
    assert forall k :: 0 <= k < |a + b| ==> JwsOf(a + b)[k] == (JwsOf(a) + JwsOf(b))[k];
  }

  /** All elements differ. */
  predicate NoDup<T(==)>(s: seq<T>)
  {
    forall x :: x in s ==> multiset(s)[x] <= 1
  }

  /** In a list without duplicates two positions hold different elements. */
  lemma NoDupDistinct<T>(s: seq<T>, i: nat, k: nat)
    requires NoDup(s) && i < k < |s|
    ensures s[i] != s[k]
  {
    var x := s[k];
    assert s == s[..k] + [x] + s[k + 1..];
    assert multiset(s)[x] == multiset(s[..k])[x] + 1 + multiset(s[k + 1..])[x];
    assert s[i] in s[..k];
    assert multiset(s[..k])[s[i]] >= 1;
  }

  /** One list of the sceneries' jetway lists after the other. */
  function Flatten(ls: seq<seq<SamJw>>): (r: seq<SamJw>)
    ensures ls == [] ==> r == []
  {
    if ls == [] then [] else Flatten(ls[..|ls| - 1]) + ls[|ls| - 1]
  }

  /**
   * The wheel base angle in the tunnel frame and the drive angle toward the
   * alignment point.  With the tunnel at its minimum extent the wheel base
   * turns no further back than −90 degrees, so the tunnel is never
   * compressed.
   */
  function ApHeading(driveAngle: real, rot1d: real, atMinExtent: bool): (h: (real, real))
    ensures atMinExtent ==> -90.0 <= h.0
    ensures -180.0 < h.0 <= 180.0
    ensures h.0 != RA(driveAngle - rot1d) ==> h == (-90.0, RA(rot1d + -90.0))
  {
    var wb := RA(driveAngle - rot1d);
    if atMinExtent && wb < -90.0 then (-90.0, RA(rot1d + -90.0)) else (wb, driveAngle)
  }

  /** The same toward the parked position, where the wheel base turns no further than 90 degrees. */
  function ParkHeading(driveAngle: real, rot1d: real, atMinExtent: bool): (h: (real, real))
    ensures atMinExtent ==> h.0 <= 90.0
    ensures -180.0 < h.0 <= 180.0
    ensures h.0 != RA(driveAngle - rot1d) ==> h == (90.0, RA(rot1d + 90.0))
  {
    var wb := RA(driveAngle - rot1d);
    if atMinExtent && wb > 90.0 then (90.0, RA(rot1d + 90.0)) else (wb, driveAngle)
  }

  /** The drive speed over the last 0.8 m before the door: from full speed down to a tenth of it. */
  function RampSpeed(tgtX: real, cabX: real): (r: real)
    ensures cabX <= tgtX ==> 0.1 * KDriveSpeed <= r <= KDriveSpeed
  {
    if cabX >= tgtX - 0.8 then KDriveSpeed * (0.1 + 0.9 * Max(0.0, (tgtX - cabX) / 0.8)) else KDriveSpeed
  }

  /** A step at a speed between 0 and vmax for a non-negative time is at most vmax times the time. */
  lemma StepBound(v: real, vmax: real, dt: real)
    requires 0.0 <= v <= vmax && dt >= 0.0
    ensures 0.0 <= dt * v <= dt * vmax
  {
    if dt > 0.0 {
      MulMono(v, vmax, dt);
      MulMono(0.0, v, dt);
    }
  }

  /** The key `operator<` compares for a candidate. */
  function KeyOf(c: Candidate): SortKey
    reads c.jw`geom
  {
    SortKey(c.jw.geom.height, c.setup.z, c.setup.x)
  }

  /** `collision_check`: would jetway a, extended to its door, cross jetway b's path to its parked position? */
  function CollisionCheck(a: DoorSetup, b: DoorSetup): bool
  {
    Collides(SegmentsOf(a.doorX, a.x, a.z, b.parkedX, b.parkedZ, b.x, b.z))
  }

  class JwCtrl {
    /** The door this controller serves. */
    var door: int
    const jw: SamJw
    var state: JwCtrlState
    /** The jetway's position and heading in the door frame, and its height over the door. */
    var x: real
    var y: real
    var z: real
    var psi: real
    /** The jetway does not really fulfil the sam.xml limits. */
    var softMatch: bool
    /** The target tunnel end and its dataref values. */
    var doorX: real
    var doorRot1: real
    var doorRot2: real
    var doorRot3: real
    var doorExtent: real
    /** The alignment point abeam the door. */
    var apX: real
    var parkedX: real
    var parkedZ: real
    var cabinX: real
    var cabinZ: real
    /** Waiting for the wheel base to turn to `wbRot`. */
    var waitWbRot: bool
    var wbRot: real
    var startTs: real
    var lastStepTs: real
    var timeout: real

    /** The controller holds the door set-up. */
    predicate HasSetup(s: DoorSetup)
      reads this`x, this`z, this`psi, this`y, this`cabinX, this`cabinZ, this`doorX, this`doorRot1, this`doorRot2
      reads this`doorRot3, this`doorExtent, this`parkedX, this`parkedZ, this`apX
    {
      x == s.x && z == s.z && psi == s.psi && y == s.y && cabinX == s.cabinX && cabinZ == s.cabinZ
      && doorX == s.doorX && doorRot1 == s.doorRot1 && doorRot2 == s.doorRot2 && doorRot3 == s.doorRot3
      && doorExtent == s.doorExtent && parkedX == s.parkedX && parkedZ == s.parkedZ && apX == s.apX
    }

    /** The copy of a candidate that becomes the active controller for a door: parked, holding the set-up. */
    constructor FromCandidate(c: Candidate, d: int)
      ensures jw == c.jw && HasSetup(c.setup) && softMatch == c.soft && door == d
      ensures state == Parked && !waitWbRot && wbRot == 0.0
      ensures startTs == 0.0 && lastStepTs == 0.0 && timeout == 0.0
    {
      var s := c.setup;
      jw := c.jw;
      x, z, psi, y := s.x, s.z, s.psi, s.y;
      cabinX, cabinZ := s.cabinX, s.cabinZ;
      doorX, doorRot1, doorRot2, doorRot3, doorExtent := s.doorX, s.doorRot1, s.doorRot2, s.doorRot3, s.doorExtent;
      parkedX, parkedZ, apX := s.parkedX, s.parkedZ, s.apX;
      softMatch := c.soft;
      door := d;
      state := Parked;
      waitWbRot := false;
      wbRot := 0.0;
      startTs, lastStepTs, timeout := 0.0, 0.0, 0.0;
    }

    /**
     * `rotate_wheel_base`: turns the wheel base one step toward `wbRot`;
     * the wheels turn by opposite amounts, so their sum stays the same.
     * Done once at most 2 degrees were left.
     */
    method RotateWheelBase(dt: real) returns (done: bool)
      modifies jw`wheelrotatec, jw`wheelrotatel, jw`wheelrotater
      ensures var d := WbDelta(wbRot, old(jw.wheelrotatec));
        (done <==> Abs(d) <= 2.0)
        && jw.wheelrotatec == old(jw.wheelrotatec) + WbStep(d, dt)
        && jw.wheelrotatel == old(jw.wheelrotatel) + WheelSpread(WbStep(d, dt), jw.geom)
        && jw.wheelrotatel + jw.wheelrotater == old(jw.wheelrotatel) + old(jw.wheelrotater)
    {
      var deltaRot := WbDelta(wbRot, jw.wheelrotatec);
      done := Abs(deltaRot) <= 2.0;
      var dRot := WbStep(deltaRot, dt);
      var daRot := WheelSpread(dRot, jw.geom);
      jw.wheelrotatec, jw.wheelrotatel, jw.wheelrotater := jw.wheelrotatec + dRot, jw.wheelrotatel + daRot, jw.wheelrotater - daRot;
    }

    /** `rotate_2`: one step toward rot2; done once within 0.5 degrees. */
    method Rotate2(rot2: real, dt: real) returns (done: bool)
      modifies jw`rotate2
      ensures jw.rotate2 == Rot2Step(old(jw.rotate2), rot2, dt)
      ensures done <==> Abs(jw.rotate2 - rot2) <= 0.5
    {
      if Abs(jw.rotate2 - rot2) > 0.5 {
        var dRot2 := dt * KTurnSpeed;
        if jw.rotate2 >= rot2 {
          jw.rotate2 := Max(jw.rotate2 - dRot2, rot2);
        } else {
          jw.rotate2 := Min(jw.rotate2 + dRot2, rot2);
        }
        return Abs(jw.rotate2 - rot2) <= 0.5;
      }
      jw.rotate2 := rot2;
      return true;
    }

    /** The rotate3 step of one call: the height speed over the lever length, in degrees. */
    function Rot3StepSize(dt: real, m: Math): real
      reads this, jw`geom, jw`extent
    {
      Div(dt * KHeightSpeed, jw.geom.cabinPos + jw.extent) * m.degPerRad
    }

    /**
     * `rotate_3`: one step toward rot3, the wheel height set from the
     * stepped value; once within 0.1 degrees it snaps to rot3 and is done.
     */
    method Rotate3(rot3: real, dt: real, m: Math) returns (done: bool)
      modifies jw`rotate3, jw`wheels
      ensures var stepped := Rot3Step(old(jw.rotate3), rot3, Rot3StepSize(dt, m));
        jw.wheels == jw.WheelsAt(stepped, jw.extent, m.tanD)
        && (done <==> Abs(stepped - rot3) <= 0.1)
        && jw.rotate3 == (if done then rot3 else stepped)
    {
      if Abs(jw.rotate3 - rot3) > 0.1 {
        var dRot3 := Rot3StepSize(dt, m);
        if jw.rotate3 >= rot3 {
          jw.rotate3 := Max(jw.rotate3 - dRot3, rot3);
        } else {
          jw.rotate3 := Min(jw.rotate3 + dRot3, rot3);
        }
      }
      jw.wheels := jw.WheelsAt(jw.rotate3, jw.extent, m.tanD);
      if Abs(jw.rotate3 - rot3) > 0.1 {
        return false;
      }
      jw.rotate3 := rot3;
      return true;
    }

    /** `rotate_1_extend`: rotate1 and extent put the tunnel end at the cabin position; the wheel height follows. */
    method Rotate1Extend(m: Math)
      modifies jw`rotate1, jw`extent, jw`wheels
      ensures var r := XzToSamDr(x, z, psi, y, jw.geom, cabinX, cabinZ, m);
        jw.rotate1 == r.0 && jw.extent == r.1 && jw.wheels == jw.WheelsAt(jw.rotate3, r.1, m.tanD)
    {
      var r := XzToSamDr(x, z, psi, y, jw.geom, cabinX, cabinZ, m);
      jw.rotate1 := r.0;
      jw.extent := r.1;
      jw.wheels := jw.WheelsAt(jw.rotate3, jw.extent, m.tanD);
    }

    /** The wheel turn for driving ds metres: backwards when the wheel base points more than 90 degrees off `wbRot`. */
    function WheelTurn(ds: real, m: Math): real
      reads this, jw`wheelrotatec, jw`geom
    {
      var s := if Abs(RA(wbRot - jw.wheelrotatec)) > 90.0 then -ds else ds;
      Div(s, jw.geom.wheelDiameter) * m.degPerRad
    }

    /** `animate_wheels`: both wheels turn by the same amount for straight driving. */
    method AnimateWheels(ds: real, m: Math)
      modifies jw`wheelrotatel, jw`wheelrotater
      ensures jw.wheelrotatel == old(jw.wheelrotatel) + WheelTurn(ds, m)
      ensures jw.wheelrotater == old(jw.wheelrotater) + WheelTurn(ds, m)
    {
      var daDs := WheelTurn(ds, m);
      jw.wheelrotatel := jw.wheelrotatel + daDs;
      jw.wheelrotater := jw.wheelrotater + daDs;
    }

    /** `setup_dock_undock`: start the operation at `start`, give up 50 s later, warn light on. */
    method SetupDockUndock(start: real)
      modifies this`state, this`startTs, this`lastStepTs, this`timeout, jw`warnlight
      ensures state == ToAp && startTs == start && lastStepTs == start && timeout == start + KAnimTimeout
      ensures jw.warnlight == 1.0
    {
      state := ToAp;
      startTs := start;
      lastStepTs := startTs;
      timeout := startTs + KAnimTimeout;
      jw.warnlight := 1.0;
    }

    /** `reset`: the jetway goes back to its initial values. */
    method Reset(m: Math)
      modifies jw`rotate1, jw`rotate2, jw`rotate3, jw`extent, jw`wheels, jw`warnlight
      ensures jw.IsReset(m.tanD)
    {
      jw.Reset(m.tanD);
    }

    /** The dataref values are those at the door. */
    predicate AtDoorValues()
      reads this, jw`rotate1, jw`rotate2, jw`rotate3, jw`extent
    {
      jw.rotate1 == doorRot1 && jw.rotate2 == doorRot2 && jw.rotate3 == doorRot3 && jw.extent == doorExtent
    }

    /** The tunnel end is at the cabin position. */
    predicate TunnelAtCabin(m: Math)
      reads this, jw`rotate1, jw`extent, jw`geom
    {
      var r := XzToSamDr(x, z, psi, y, jw.geom, cabinX, cabinZ, m);
      jw.rotate1 == r.0 && jw.extent == r.1
    }

    /**
     * The rest of a TO_AP docking step: rotate2 toward the door while the
     * cabin is more than 1 m before the alignment point or more than 2 m
     * aside, else toward its door value; the tunnel end follows the cabin;
     * rotate3 toward its door value; the wheels roll.
     */
    method FollowToAp(tgtX: real, dt: real, ds: real, m: Math)
      modifies jw`rotate1, jw`rotate2, jw`rotate3, jw`extent, jw`wheels, jw`wheelrotatel, jw`wheelrotater
      ensures TunnelAtCabin(m)
      ensures !(cabinX < tgtX - 1.0 || cabinZ < -2.0) ==> jw.rotate2 == Rot2Step(old(jw.rotate2), doorRot2, dt)
    {
      var tgtRot2 := doorRot2;
      if cabinX < tgtX - 1.0 || cabinZ < -2.0 {
        var angleToDoor := m.atan2D(-cabinZ, doorX - cabinX);
        tgtRot2 := RA(angleToDoor + 90.0 - psi - jw.rotate1);  // point to the door
      }
      var _ := Rotate2(tgtRot2, dt);
      Rotate1Extend(m);
      var _ := Rotate3(doorRot3, dt, m);
      AnimateWheels(ds, m);
    }

    /** The tunnel end follows the cabin and the wheels roll ds metres. */
    method FollowCabin(ds: real, m: Math)
      modifies jw`rotate1, jw`extent, jw`wheels, jw`wheelrotatel, jw`wheelrotater
      ensures TunnelAtCabin(m)
      ensures jw.wheelrotatel == old(jw.wheelrotatel) + WheelTurn(ds, m)
    {
      Rotate1Extend(m);
      AnimateWheels(ds, m);
    }

    /** The rest of a TO_PARK step: rotate2 and rotate3 toward their initial values, the tunnel end follows the cabin, the wheels roll. */
    method FollowToPark(dt: real, ds: real, m: Math)
      modifies jw`rotate1, jw`rotate2, jw`rotate3, jw`extent, jw`wheels, jw`wheelrotatel, jw`wheelrotater
      ensures TunnelAtCabin(m)
      ensures jw.rotate2 == Rot2Step(old(jw.rotate2), jw.initialRot2, dt)
    {
      var _ := Rotate2(jw.initialRot2, dt);
      var _ := Rotate3(jw.initialRot3, dt, m);
      Rotate1Extend(m);
      AnimateWheels(ds, m);
    }

    /**
     * `dock_drive`, TO_AP phase: drive the cabin toward the alignment point
     * while turning the cabin toward the door.  Stops the call (`stop`)
     * while the wheel base turns and when the point is reached.
     */
    method DockToAp(dt: real, rot1d: real, m: Math) returns (stop: bool)
      requires state == ToAp
      modifies this`state, this`cabinX, this`cabinZ, this`wbRot, this`waitWbRot
      modifies jw`rotate1, jw`rotate2, jw`rotate3, jw`extent, jw`wheels, jw`wheelrotatec, jw`wheelrotatel, jw`wheelrotater
      ensures state == ToAp || (state == AtAp && stop)
      ensures state == AtAp ==> Abs(apX - cabinX) < Max(2.0 * dt * KDriveSpeed, 0.1) && Abs(cabinZ) < Max(2.0 * dt * KDriveSpeed, 0.1)
      ensures !stop ==> !waitWbRot
      ensures wbRot != old(wbRot) && old(jw.extent) <= jw.geom.minExtent ==> wbRot >= -90.0
    {
      if waitWbRot {
        var ok := RotateWheelBase(dt);
        if !ok {
          return true;
        }
        waitWbRot := false;
      }
      var tgtX := apX;
      var eps := Max(2.0 * dt * KDriveSpeed, 0.1);
      if Abs(tgtX - cabinX) < eps && Abs(cabinZ) < eps {
        state := AtAp;
        return true;
      }
      stop := ApStep(dt, rot1d, m);
    }

    /** One TO_AP drive step toward the alignment point; stops the call while the wheel base turns. */
    method ApStep(dt: real, rot1d: real, m: Math) returns (stop: bool)
      modifies this`cabinX, this`cabinZ, this`wbRot, this`waitWbRot
      modifies jw`rotate1, jw`rotate2, jw`rotate3, jw`extent, jw`wheels, jw`wheelrotatec, jw`wheelrotatel, jw`wheelrotater
      ensures stop <==> waitWbRot
      ensures old(jw.extent) <= jw.geom.minExtent ==> wbRot >= -90.0
    {
      var ds := dt * KDriveSpeed;
      var h := ApHeading(m.atan2D(-cabinZ, apX - cabinX), rot1d, jw.extent <= jw.geom.minExtent);
      wbRot := h.0;
      cabinX := cabinX + m.cosD(h.1) * ds;
      cabinZ := cabinZ + m.sinD(h.1) * ds;
      var ok := RotateWheelBase(dt);
      if !ok {
        waitWbRot := true;
        return true;
      }
      waitWbRot := false;
      FollowToAp(apX, dt, ds, m);
      return false;
    }

    /**
     * `dock_drive`, AT_AP phase: turn the wheel base toward the door; on to
     * TO_DOOR once rotate2 is within 0.5 degrees and rotate3 at its door
     * value.
     */
    method DockAtAp(dt: real, rot1d: real, m: Math)
      requires state == AtAp
      modifies this`state, this`wbRot
      modifies jw`rotate2, jw`rotate3, jw`wheels, jw`wheelrotatec, jw`wheelrotatel, jw`wheelrotater
      ensures state == AtAp || state == ToDoor
      ensures state == ToDoor ==> Abs(jw.rotate2 - doorRot2) <= 0.5 && jw.rotate3 == doorRot3
      ensures wbRot == RA(-rot1d)
    {
      wbRot := RA(-rot1d);
      var _ := RotateWheelBase(dt);
      var r2 := Rotate2(doorRot2, dt);
      if r2 {
        var r3 := Rotate3(doorRot3, dt, m);
        if r3 {
          state := ToDoor;
        }
      }
    }

    /**
     * `dock_drive`, TO_DOOR phase: drive the cabin straight to the door,
     * never past it, slowing down over the last 0.8 m; DOCKED with the warn
     * light off once within reach.
     */
    method DockToDoor(dt: real, rot1d: real, m: Math) returns (done: bool)
      requires state == ToDoor
      modifies this`state, this`cabinX, this`wbRot, this`waitWbRot
      modifies jw`rotate1, jw`extent, jw`wheels, jw`wheelrotatec, jw`wheelrotatel, jw`wheelrotater, jw`warnlight
      ensures done <==> state == Docked
      ensures state == ToDoor || state == Docked
      ensures done ==> Abs(doorX - cabinX) < Max(2.0 * dt * KDriveSpeed, 0.05) && jw.warnlight == 0.0
      ensures dt >= 0.0 ==> Min(old(cabinX), doorX) <= cabinX
    {
      if waitWbRot {
        var ok := RotateWheelBase(dt);
        if !ok {
          return false;
        }
        waitWbRot := false;
      }
      done := DoorStep(dt, rot1d, m);
    }

    /** One TO_DOOR drive step once the wheel base is lined up. */
    method DoorStep(dt: real, rot1d: real, m: Math) returns (done: bool)
      requires state == ToDoor
      modifies this`state, this`cabinX, this`wbRot, this`waitWbRot
      modifies jw`rotate1, jw`extent, jw`wheels, jw`wheelrotatec, jw`wheelrotatel, jw`wheelrotater, jw`warnlight
      ensures done <==> state == Docked
      ensures state == ToDoor || state == Docked
      ensures done ==> Abs(doorX - cabinX) < Max(2.0 * dt * KDriveSpeed, 0.05) && jw.warnlight == 0.0
      ensures dt >= 0.0 ==> Min(old(cabinX), doorX) <= cabinX
    {
      cabinX := Min(cabinX, doorX);  // do not drive beyond the door
      var speed := RampSpeed(doorX, cabinX);
      var ds := dt * speed;
      if dt >= 0.0 {
        StepBound(speed, KDriveSpeed, dt);
      }
      cabinX := cabinX + ds;
      assert dt >= 0.0 ==> Min(old(cabinX), doorX) <= cabinX;
      wbRot := RA(-rot1d);
      var ok := RotateWheelBase(dt);
      if !ok {
        waitWbRot := true;
        return false;
      }
      waitWbRot := false;
      FollowCabin(ds, m);
      var eps := Max(2.0 * dt * KDriveSpeed, 0.05);
      if Abs(doorX - cabinX) < eps {
        state := Docked;
        jw.warnlight := 0.0;
        return true;
      }
      return false;
    }

    /**
     * `dock_drive`: one animation step at time `now`.  Done at once when
     * docked; nothing happens before the start time; after the time-out the
     * jetway jumps to the door.  Otherwise the phases run in order, a phase
     * that finishes handing over to the next in the same step.  The state
     * only advances, and the result says whether the jetway is docked.
     */
    method DockDrive(now: real, m: Math) returns (done: bool)
      modifies this`state, this`lastStepTs, this`cabinX, this`cabinZ, this`wbRot, this`waitWbRot
      modifies jw`rotate1, jw`rotate2, jw`rotate3, jw`extent, jw`wheels, jw`wheelrotatec, jw`wheelrotatel, jw`wheelrotater, jw`warnlight
      ensures old(state) == Docked ==> done && unchanged(this, jw)
      ensures old(state) != Docked && now < old(startTs) ==> !done && unchanged(this, jw)
      ensures old(state) != Docked && now >= startTs && now > timeout ==> done && AtDoorValues() && jw.warnlight == 0.0
      ensures done <==> state == Docked
      ensures DockRank(state) >= DockRank(old(state))
      ensures old(state) !in {ToAp, AtAp, ToDoor, Docked} && now <= timeout ==> state == old(state)
    {
      if state == Docked {
        return true;
      }
      if now < startTs {
        return false;
      }
      // guard against a hung animation
      if now > timeout {
        state := Docked;
        jw.rotate1, jw.rotate2, jw.rotate3, jw.extent := doorRot1, doorRot2, doorRot3, doorExtent;
        jw.warnlight := 0.0;
        return true;
      }
      var dt := now - lastStepTs;
      lastStepTs := now;
      var rot1d := RA((jw.rotate1 + psi) - 90.0);
      if state == ToAp {
        var stop := DockToAp(dt, rot1d, m);
        if stop {
          return false;
        }
      }
      if state == AtAp {
        DockAtAp(dt, rot1d, m);
      }
      if state == ToDoor {
        done := DockToDoor(dt, rot1d, m);
        return;
      }
      return false;
    }

    /** `undock_drive`, TO_AP phase: back out to the alignment point at half speed. */
    method UndockToAp(dt: real, rot1d: real, m: Math) returns (stop: bool)
      requires state == ToAp
      modifies this`state, this`cabinX, this`cabinZ, this`wbRot, this`waitWbRot
      modifies jw`rotate1, jw`extent, jw`wheels, jw`wheelrotatec, jw`wheelrotatel, jw`wheelrotater
      ensures state == ToAp || (state == AtAp && stop)
      ensures state == AtAp ==> Abs(apX - cabinX) < Max(2.0 * dt * KDriveSpeed, 0.1) && Abs(cabinZ) < Max(2.0 * dt * KDriveSpeed, 0.1)
      ensures !stop ==> !waitWbRot
    {
      if waitWbRot {
        var ok := RotateWheelBase(dt);
        if !ok {
          return true;
        }
        waitWbRot := false;
      }
      var tgtX := apX;
      var eps := Max(2.0 * dt * KDriveSpeed, 0.1);
      if Abs(tgtX - cabinX) < eps && Abs(cabinZ) < eps {
        state := AtAp;
        return true;
      }
      var ds := dt * 0.5 * KDriveSpeed;
      var driveAngle := m.atan2D(-cabinZ, tgtX - cabinX);
      cabinX := cabinX + m.cosD(driveAngle) * ds;
      cabinZ := cabinZ + m.sinD(driveAngle) * ds;
      wbRot := RA(driveAngle - rot1d);
      var ok := RotateWheelBase(dt);
      if !ok {
        waitWbRot := true;
        return true;
      }
      waitWbRot := false;
      FollowCabin(ds, m);
      return false;
    }

    /**
     * `undock_drive`, TO_PARK phase: drive the cabin to its parked position
     * while rotate2 and rotate3 return to their initial values; PARKED and
     * warn light off once within reach, and the jetway unlocked when this
     * controller's jetways carry a lock (`locks`).
     */
    method UndockToPark(dt: real, rot1d: real, m: Math, locks: bool) returns (done: bool)
      requires state == ToPark
      modifies this`state, this`cabinX, this`cabinZ, this`wbRot, this`waitWbRot
      modifies jw`rotate1, jw`rotate2, jw`rotate3, jw`extent, jw`wheels, jw`wheelrotatec, jw`wheelrotatel, jw`wheelrotater
      modifies jw`warnlight, jw`locked
      ensures done <==> state == Parked
      ensures state == ToPark || state == Parked
      ensures done ==> Abs(parkedX - cabinX) < Max(2.0 * dt * KDriveSpeed, 0.1) && Abs(parkedZ - cabinZ) < Max(2.0 * dt * KDriveSpeed, 0.1)
      ensures done ==> jw.warnlight == 0.0
      ensures done && locks ==> !jw.locked
      ensures !done || !locks ==> jw.locked == old(jw.locked)
      ensures wbRot != old(wbRot) && old(jw.extent) <= jw.geom.minExtent ==> wbRot <= 90.0
    {
      if waitWbRot {
        var ok := RotateWheelBase(dt);
        if !ok {
          return false;
        }
        waitWbRot := false;
      }
      done := ParkStep(dt, rot1d, m, locks);
    }

    /** One TO_PARK drive step once the wheel base is lined up. */
    method ParkStep(dt: real, rot1d: real, m: Math, locks: bool) returns (done: bool)
      requires state == ToPark
      modifies this`state, this`cabinX, this`cabinZ, this`wbRot, this`waitWbRot
      modifies jw`rotate1, jw`rotate2, jw`rotate3, jw`extent, jw`wheels, jw`wheelrotatec, jw`wheelrotatel, jw`wheelrotater
      modifies jw`warnlight, jw`locked
      ensures done <==> state == Parked
      ensures state == ToPark || state == Parked
      ensures done ==> Abs(parkedX - cabinX) < Max(2.0 * dt * KDriveSpeed, 0.1) && Abs(parkedZ - cabinZ) < Max(2.0 * dt * KDriveSpeed, 0.1)
      ensures done ==> jw.warnlight == 0.0
      ensures done && locks ==> !jw.locked
      ensures !done || !locks ==> jw.locked == old(jw.locked)
      ensures old(jw.extent) <= jw.geom.minExtent ==> wbRot <= 90.0
    {
      var ds := dt * KDriveSpeed;
      var h := ParkHeading(m.atan2D(parkedZ - cabinZ, parkedX - cabinX), rot1d, jw.extent <= jw.geom.minExtent);
      wbRot := h.0;
      cabinX := cabinX + m.cosD(h.1) * ds;
      cabinZ := cabinZ + m.sinD(h.1) * ds;
      var ok := RotateWheelBase(dt);
      if !ok {
        waitWbRot := true;
        return false;
      }
      waitWbRot := false;
      FollowToPark(dt, ds, m);
      var eps := Max(2.0 * dt * KDriveSpeed, 0.1);
      if Abs(parkedX - cabinX) < eps && Abs(parkedZ - cabinZ) < eps {
        state := Parked;
        jw.warnlight := 0.0;
        if locks {
          jw.locked := false;
        }
        return true;
      }
      return false;
    }

    /**
     * The time-out of `undock_drive` as written: PARKED and the jetway
     * reset, but its lock is kept, so no later docking selects it again.
     */
    method UndockTimeout(m: Math)
      modifies this`state, jw`rotate1, jw`rotate2, jw`rotate3, jw`extent, jw`wheels, jw`warnlight
      ensures state == Parked && jw.IsReset(m.tanD)
    {
      state := Parked;
      jw.Reset(m.tanD);
    }

    /** The time-out as evidently intended: like reaching the parked position, it also unlocks the jetway. */
    method UndockTimeoutFixed(m: Math)
      modifies this`state, jw`rotate1, jw`rotate2, jw`rotate3, jw`extent, jw`wheels, jw`warnlight, jw`locked
      ensures state == Parked && jw.IsReset(m.tanD) && !jw.locked
    {
      state := Parked;
      jw.Reset(m.tanD);
      jw.locked := false;
    }

    /**
     * The time-out of os_jw.cpp's `undock_drive`: PARKED, rotate1..3 and
     * the extent back at their initial values and the warn light off, but
     * the wheel height is left where it was.
     */
    method OsUndockTimeout()
      modifies this`state, jw`rotate1, jw`rotate2, jw`rotate3, jw`extent, jw`warnlight
      ensures state == Parked && jw.AtInitial()
    {
      state := Parked;
      jw.rotate1, jw.rotate2, jw.rotate3, jw.extent := jw.initialRot1, jw.initialRot2, jw.initialRot3, jw.initialExtent;
      jw.warnlight := 0.0;
    }

    /**
     * `undock_drive`: one animation step at time `now`, like `DockDrive`
     * toward PARKED.  `locks` selects the version: jwctrl.cpp's jetways
     * carry a lock, which reaching the parked position releases and a
     * time-out keeps, and a time-out resets the whole jetway; os_jw.cpp's
     * have none, and its time-out leaves the wheel height alone.
     */
    method UndockDrive(now: real, m: Math, locks: bool) returns (done: bool)
      modifies this`state, this`lastStepTs, this`cabinX, this`cabinZ, this`wbRot, this`waitWbRot
      modifies jw`rotate1, jw`rotate2, jw`rotate3, jw`extent, jw`wheels, jw`wheelrotatec, jw`wheelrotatel, jw`wheelrotater
      modifies jw`warnlight, jw`locked
      ensures old(state) == Parked ==> done && unchanged(this, jw)
      ensures old(state) != Parked && now < old(startTs) ==> !done && unchanged(this, jw)
      ensures old(state) != Parked && now >= startTs && now > timeout ==> done && jw.AtInitial() && jw.locked == old(jw.locked)
      ensures old(state) != Parked && now >= startTs && now > timeout && locks ==> jw.IsReset(m.tanD)
      ensures old(state) != Parked && now >= startTs && now > timeout && !locks ==> jw.wheels == old(jw.wheels)
      ensures !locks ==> jw.locked == old(jw.locked)
      ensures done <==> state == Parked
      ensures UndockRank(state) >= UndockRank(old(state))
      ensures old(state) !in {ToAp, AtAp, ToPark, Parked} && now <= timeout ==> state == old(state)
      ensures done && old(state) != Parked && now <= timeout && locks ==> !jw.locked
    {
      if state == Parked {
        return true;
      }
      if now < startTs {
        return false;
      }
      // guard against a hung animation
      if now > timeout {
        if locks {
          UndockTimeout(m);
        } else {
          OsUndockTimeout();
        }
        return true;
      }
      var dt := now - lastStepTs;
      lastStepTs := now;
      var rot1d := RA((jw.rotate1 + psi) - 90.0);
      if state == ToAp {
        var stop := UndockToAp(dt, rot1d, m);
        if stop {
          return false;
        }
      }
      if state == AtAp {
        state := ToPark;
      }
      if state == ToPark {
        done := UndockToPark(dt, rot1d, m, locks);
        return;
      }
      return false;
    }
  }

  /** `filter_candidates`: the candidates the filters keep from a list of jetways, in list order. */
  method FilterCandidates(jws: seq<SamJw>, plane: PlanePose, di: DoorInfo, refGen: nat, m: Math) returns (found: seq<Candidate>)
    ensures found == Candidates(jws, plane, di, refGen, m)
  {
    found := [];
    for i := 0 to |jws|
      invariant found == Candidates(jws[..i], plane, di, refGen, m)
    {
      assert jws[..i + 1][..i] == jws[..i];
      var j := jws[i];
      var v := VerdictOf(j, plane, di, refGen, m);
      if v.Take? {
        found := found + [Candidate(j, SetupFor(j, plane, di, m), v.Soft())];
      }
    }
    assert jws[..|jws|] == jws;
  }

  /** The sums of the doors' x and z coordinates, door by door. */
  function SumX(doors: seq<DoorInfo>): real
  {
    if doors == [] then 0.0 else SumX(doors[..|doors| - 1]) + doors[|doors| - 1].x
  }

  function SumZ(doors: seq<DoorInfo>): real
  {
    if doors == [] then 0.0 else SumZ(doors[..|doors| - 1]) + doors[|doors| - 1].z
  }

  /** The 'average' door `find_nearest_jws` filters against: mean x and z, the first door's height. */
  function AvgDoor(doors: seq<DoorInfo>): (di: DoorInfo)
    requires |doors| > 0
  {
    Seasons.DoorInfo(SumX(doors) / |doors| as real, doors[0].y, SumZ(doors) / |doors| as real)
  }

  /** A bound every door's x keeps bounds the sum by the door count. */
  lemma {:induction false} SumXBounds(doors: seq<DoorInfo>, lo: real, hi: real)
    requires forall k :: 0 <= k < |doors| ==> lo <= doors[k].x <= hi
    ensures |doors| as real * lo <= SumX(doors) <= |doors| as real * hi
  {
    if doors != [] {
      SumXBounds(doors[..|doors| - 1], lo, hi);
    }
  }

  /** The average door lies within the doors' x range. */
  lemma AvgDoorWithin(doors: seq<DoorInfo>, lo: real, hi: real)
    requires |doors| > 0
    requires forall k :: 0 <= k < |doors| ==> lo <= doors[k].x <= hi
    ensures lo <= AvgDoor(doors).x <= hi
  {
    SumXBounds(doors, lo, hi);
    QuotientWithin(SumX(doors), |doors| as real, lo, hi);
  }

  /** A sum between n times lo and n times hi gives a mean between lo and hi. */
  lemma QuotientWithin(s: real, n: real, lo: real, hi: real)
    requires n > 0.0 && n * lo <= s <= n * hi
    ensures lo <= s / n <= hi
  {
    DivMul(s, n);
    MulCancel(lo, s / n, n);
    MulCancel(s / n, hi, n);
  }

  /** Multiplying by a positive factor keeps the order, so it can be cancelled. */
  lemma MulCancel(x: real, y: real, n: real)
    requires n > 0.0 && x * n <= y * n
    ensures x <= y
  {
  }

  /** The loop summing the door coordinates. */
  method AverageDoor(doors: seq<DoorInfo>) returns (di: DoorInfo)
    requires |doors| > 0
    ensures di == AvgDoor(doors)
  {
    var sx, sz := 0.0, 0.0;
    for i := 0 to |doors|
      invariant sx == SumX(doors[..i]) && sz == SumZ(doors[..i])
    {
      assert doors[..i + 1][..i] == doors[..i];
      sx := sx + doors[i].x;
      sz := sz + doors[i].z;
    }
    assert doors[..|doors|] == doors;
    di := Seasons.DoorInfo(sx / |doors| as real, doors[0].y, sz / |doors| as real);
  }

  /** The candidate lists of the sceneries, then of the zero-config table, in that order. */
  method CollectCandidates(sceneries: seq<seq<SamJw>>, zc: seq<SamJw>, plane: PlanePose, di: DoorInfo, refGen: nat, m: Math)
    returns (found: seq<Candidate>)
    ensures found == Candidates(Flatten(sceneries) + zc, plane, di, refGen, m)
  {
    var seen;
    found, seen := CollectSceneries(sceneries, plane, di, refGen, m);
    var more := FilterCandidates(zc, plane, di, refGen, m);
    CandidatesConcat(seen, zc, plane, di, refGen, m);
    found := found + more;
  }

  /** The loop over the sceneries: their candidates, and the jetways they were taken from. */
  method CollectSceneries(sceneries: seq<seq<SamJw>>, plane: PlanePose, di: DoorInfo, refGen: nat, m: Math)
    returns (found: seq<Candidate>, seen: seq<SamJw>)
    ensures seen == Flatten(sceneries) && found == Candidates(seen, plane, di, refGen, m)
  {
    found, seen := [], [];
    for i := 0 to |sceneries|
      invariant seen == Flatten(sceneries[..i])
      invariant found == Candidates(seen, plane, di, refGen, m)
    {
      found, seen := CollectOne(sceneries, i, found, seen, plane, di, refGen, m);
    }
    assert sceneries[..|sceneries|] == sceneries;
  }

  /** The candidates of scenery i appended to those of the sceneries before it. */
  method CollectOne(sceneries: seq<seq<SamJw>>, i: nat, found: seq<Candidate>, seen: seq<SamJw>,
                    plane: PlanePose, di: DoorInfo, refGen: nat, m: Math)
    returns (found': seq<Candidate>, seen': seq<SamJw>)
    requires i < |sceneries| && seen == Flatten(sceneries[..i]) && found == Candidates(seen, plane, di, refGen, m)
    ensures seen' == Flatten(sceneries[..i + 1]) && found' == Candidates(seen', plane, di, refGen, m)
  {
    var more := FilterCandidates(sceneries[i], plane, di, refGen, m);
    CollectStep(sceneries, i, plane, di, refGen, m);
    found' := found + more;
    seen' := seen + sceneries[i];
  }

  /** One more scenery adds its own candidates after those of the earlier ones. */
  lemma CollectStep(sceneries: seq<seq<SamJw>>, i: nat, plane: PlanePose, di: DoorInfo, refGen: nat, m: Math)
    requires i < |sceneries|
    ensures Flatten(sceneries[..i + 1]) == Flatten(sceneries[..i]) + sceneries[i]
    ensures Candidates(Flatten(sceneries[..i + 1]), plane, di, refGen, m)
      == Candidates(Flatten(sceneries[..i]), plane, di, refGen, m) + Candidates(sceneries[i], plane, di, refGen, m)
  {
    assert sceneries[..i + 1][..i] == sceneries[..i];
    assert Flatten(sceneries[..i + 1]) == Flatten(sceneries[..i]) + sceneries[i];
    CandidatesConcat(Flatten(sceneries[..i]), sceneries[i], plane, di, refGen, m);
  }

  /** The sort keys of a candidate list. */
  function Keys(cs: seq<Candidate>): (ks: seq<SortKey>)
    reads (set c | c in cs :: c.jw)`geom
    ensures |ks| == |cs| && forall k :: 0 <= k < |cs| ==> ks[k] == KeyOf(cs[k])
  {
    if cs == [] then [] else Keys(cs[..|cs| - 1]) + [KeyOf(cs[|cs| - 1])]
  }

  /** No key is less than its predecessor under the corrected comparator, among the first n. */
  predicate InOrderUpTo(ks: seq<SortKey>, n: nat)
  {
    forall k :: 0 < k < |ks| && k < n ==> !LessFixed(ks[k], ks[k - 1])
  }

  /** No two neighbours of a candidate list are out of order under the corrected comparator. */
  predicate AdjacentOrdered(cs: seq<Candidate>)
    reads (set c | c in cs :: c.jw)`geom
  {
    InOrderUpTo(Keys(cs), |cs|)
  }

  /** `cs` with positions k - 1 and k exchanged. */
  function SwapDown<T>(cs: seq<T>, k: nat): (r: seq<T>)
    requires 0 < k < |cs|
    ensures |r| == |cs| && multiset(r) == multiset(cs)
    ensures r[k - 1] == cs[k] && r[k] == cs[k - 1] && forall i :: 0 <= i < |cs| && i != k - 1 && i != k ==> r[i] == cs[i]
  {
    assert cs == cs[..k - 1] + [cs[k - 1], cs[k]] + cs[k + 1..];
    cs[..k - 1] + [cs[k], cs[k - 1]] + cs[k + 1..]
  }

  /** Swapping two candidates swaps their jetways, and their keys. */
  lemma SwapJws(cs: seq<Candidate>, k: nat)
    requires 0 < k < |cs|
    ensures JwsOf(SwapDown(cs, k)) == SwapDown(JwsOf(cs), k)
  {
  }

  lemma SwapKeys(cs: seq<Candidate>, k: nat)
    requires 0 < k < |cs|
    ensures Keys(SwapDown(cs, k)) == SwapDown(Keys(cs), k)
  {
    var r := SwapDown(cs, k);
    var ks := Keys(r);
    var sk := SwapDown(Keys(cs), k);
    forall i | 0 <= i < |cs|
      ensures ks[i] == sk[i]
    {
      if i == k - 1 {
        assert ks[i] == KeyOf(cs[k]);
      } else if i == k {
        assert ks[i] == KeyOf(cs[k - 1]);
      }
    }
  }

  /** What insertion needs of the keys while the new key sits at j among the first i + 1. */
  predicate Inserting(ks: seq<SortKey>, i: nat, j: nat)
  {
    j <= i < |ks|
    && (forall k :: 0 < k <= i && k != j && k != j + 1 ==> !LessFixed(ks[k], ks[k - 1]))
    && (j < i ==> !LessFixed(ks[j + 1], ks[j]))
    && (0 < j < i ==> !LessFixed(ks[j + 1], ks[j - 1]))
  }

  /** Moving the new key down past a greater predecessor keeps the insertion invariant. */
  lemma InsertStep(ks: seq<SortKey>, i: nat, j: nat)
    requires 0 < j && Inserting(ks, i, j) && LessFixed(ks[j], ks[j - 1])
    ensures Inserting(SwapDown(ks, j), i, j - 1)
  {
    LessFixedStrict(ks[j], ks[j - 1]);
  }

  /** Once the new key is not less than its predecessor, the first i + 1 keys are in order. */
  lemma InsertDone(ks: seq<SortKey>, i: nat, j: nat)
    requires Inserting(ks, i, j) && (0 < j ==> !LessFixed(ks[j], ks[j - 1]))
    ensures InOrderUpTo(ks, i + 1)
  {
  }

  /**
   * The `std::sort` of `find_nearest_jws`, as an insertion sort under the
   * corrected comparator: a permutation in which no candidate is less than
   * its predecessor.
   */
  method SortCandidates(cs: seq<Candidate>) returns (r: seq<Candidate>)
    ensures multiset(r) == multiset(cs) && multiset(JwsOf(r)) == multiset(JwsOf(cs))
    ensures AdjacentOrdered(r)
  {
    r := cs;
    if |r| == 0 {
      return;
    }
    var i := 1;
    while i < |r|
      invariant 1 <= i <= |r| == |cs| && multiset(r) == multiset(cs) && multiset(JwsOf(r)) == multiset(JwsOf(cs))
      invariant InOrderUpTo(Keys(r), i)
    {
      r := InsertDown(r, i);
      i := i + 1;
    }
  }

  /** Moves r0[i] down past every predecessor it is less than, after the first i are in order. */
  method InsertDown(r0: seq<Candidate>, i: nat) returns (r: seq<Candidate>)
    requires 0 < i < |r0| && InOrderUpTo(Keys(r0), i)
    ensures |r| == |r0| && multiset(r) == multiset(r0) && multiset(JwsOf(r)) == multiset(JwsOf(r0))
    ensures InOrderUpTo(Keys(r), i + 1)
  {
    r := r0;
    var j := i;
    ghost var ks := Keys(r0);
    while 0 < j && LessFixed(KeyOf(r[j]), KeyOf(r[j - 1]))
      invariant j <= i && |r| == |r0| && multiset(r) == multiset(r0) && multiset(JwsOf(r)) == multiset(JwsOf(r0))
      invariant ks == Keys(r) && Inserting(ks, i, j)
    {
      r, ks := SwapBack(r, ks, i, j);
      j := j - 1;
    }
    InsertDone(Keys(r), i, j);
  }

  /** One exchange of the insertion: the new key moves from j to j - 1, the rest of the keys stay in order. */
  method SwapBack(r: seq<Candidate>, ghost ks: seq<SortKey>, i: nat, j: nat) returns (r': seq<Candidate>, ghost ks': seq<SortKey>)
    requires 0 < j && ks == Keys(r) && Inserting(ks, i, j) && LessFixed(ks[j], ks[j - 1])
    ensures |r'| == |r| && multiset(r') == multiset(r) && multiset(JwsOf(r')) == multiset(JwsOf(r))
    ensures ks' == Keys(r') && Inserting(ks', i, j - 1)
  {
    InsertStep(ks, i, j);
    SwapJws(r, j);
    SwapKeys(r, j);
    r', ks' := SwapDown(r, j), SwapDown(ks, j);
  }

  /** The character `%c` prints for the int i + 'A': the low byte of the sum. */
  function Letter(i: nat): char
  {
    ((i + 65) % 256) as char
  }

  /** A stand id cut at its first space and then to at most 10 characters. */
  function StandPrefix(id: string): (p: string)
    ensures |p| <= 10 && p <= id && ' ' !in p
    ensures |p| < 10 ==> p == CutAt(id, ' ')
  {
    var c := CutAt(id, ' ');
    if |c| > 10 then c[..10] else c
  }

  /** The name a zero-config jetway gets as the i-th zero-config candidate: stand prefix (or "zc") and a letter. */
  function ZcName(standId: Option<string>, i: nat): string
  {
    match standId
    case Some(id) => StandPrefix(id) + ['_', Letter(i)]
    case None => "zc_" + [Letter(i)]
  }

  /**
   * A zero-config name is at most 12 characters: a stand prefix without
   * spaces (or "zc"), an underscore and the letter; the first 26 candidates
   * are lettered A to Z, and names for one stand differ from letter to letter.
   */
  lemma ZcNameShape(standId: Option<string>, i: nat, k: nat)
    ensures var r := ZcName(standId, i);
      2 <= |r| <= 12 && r[|r| - 2..] == ['_', Letter(i)] && ' ' !in r[..|r| - 2]
      && (standId.Some? ==> r[..|r| - 2] <= standId.value)
      && (standId.None? ==> r[..|r| - 2] == "zc")
    ensures i < 26 ==> 'A' <= ZcName(standId, i)[|ZcName(standId, i)| - 1] <= 'Z'
    ensures i < k < 191 ==> ZcName(standId, i) != ZcName(standId, k)
  {
    var a, b := ZcName(standId, i), ZcName(standId, k);
    if i < k < 191 {
      assert a[|a| - 1] == Letter(i) != Letter(k) == b[|b| - 1];
    }
  }

  /**
   * The naming loop of `find_nearest_jws`: a counter that advances only at
   * zero-config jetways, whose names it sets from the number of zero-config
   * jetways before them; other jetways keep their names.
   */
  method NameZcJws(cs: seq<Candidate>)
    requires forall a, b :: 0 <= a < b < |cs| ==> cs[a].jw != cs[b].jw
    modifies (set c | c in cs :: c.jw)`name
    ensures forall k :: 0 <= k < |cs| ==>
      cs[k].jw.name == if cs[k].jw.isZcJw then ZcName(cs[k].jw.standId, old(ZcOrdinals(cs))[k]) else old(cs[k].jw.name)
    ensures Keys(cs) == old(Keys(cs)) && ZcOrdinals(cs) == old(ZcOrdinals(cs))
  {
    ghost var before := ZcOrdinals(cs);
    var i := 0;
    for p := 0 to |cs|
      invariant i == before[p]
      invariant forall k :: 0 <= k < |cs| ==>
        cs[k].jw.name == if k < p && cs[k].jw.isZcJw then ZcName(cs[k].jw.standId, before[k]) else old(cs[k].jw.name)
    {
      i := NameOne(cs[p].jw, i);
    }
  }

  /** One step of the naming loop: a zero-config jetway gets the i-th name and advances the counter. */
  method NameOne(jw: SamJw, i: nat) returns (next: nat)
    modifies jw`name
    ensures next == i + (if jw.isZcJw then 1 else 0)
    ensures jw.name == if jw.isZcJw then ZcName(jw.standId, i) else old(jw.name)
  {
    next := i;
    if jw.isZcJw {
      jw.name := ZcName(jw.standId, i);
      next := i + 1;
    }
  }

  /** For each position, how many of the candidates before it hold zero-config jetways. */
  function ZcOrdinals(cs: seq<Candidate>): (r: seq<nat>)
    reads (set c | c in cs :: c.jw)`isZcJw
    ensures |r| == |cs| + 1 && r[0] == 0
    ensures forall k :: 0 <= k < |cs| ==> r[k + 1] == r[k] + (if cs[k].jw.isZcJw then 1 else 0)
  {
    if cs == [] then [0]
    else
      var r0 := ZcOrdinals(cs[..|cs| - 1]);
      r0 + [r0[|cs| - 1] + (if cs[|cs| - 1].jw.isZcJw then 1 else 0)]
  }

  /** The last loop of `find_nearest_jws`: every candidate's jetway is locked. */
  method LockAll(cs: seq<Candidate>)
    modifies (set c | c in cs :: c.jw)`locked
    ensures forall k :: 0 <= k < |cs| ==> cs[k].jw.locked
    ensures forall k :: 0 <= k < |cs| ==> cs[k].jw.name == old(cs[k].jw.name)
    ensures Keys(cs) == old(Keys(cs)) && ZcOrdinals(cs) == old(ZcOrdinals(cs))
  {
    for p := 0 to |cs|
      invariant forall k :: 0 <= k < p ==> cs[k].jw.locked
    {
      cs[p].jw.locked := true;
    }
  }

  /** Dropping a tail keeps a list free of duplicates. */
  lemma NoDupPrefix<T>(a: seq<T>, b: seq<T>)
    requires NoDup(a + b)
    ensures NoDup(a)
  {
    forall x | x in a
      ensures multiset(a)[x] <= 1
    {
      assert multiset(a + b)[x] == multiset(a)[x] + multiset(b)[x];
    }
  }

  /** Without duplicates among the jetways, the candidates hold each jetway once. */
  lemma CandidatesNoDup(jws: seq<SamJw>, plane: PlanePose, di: DoorInfo, refGen: nat, m: Math)
    requires NoDup(jws)
    ensures NoDup(JwsOf(Candidates(jws, plane, di, refGen, m)))
    ensures forall c :: c in Candidates(jws, plane, di, refGen, m) ==> c.jw in jws
  {
    CandidatesSub(jws, plane, di, refGen, m);
    var cs := Candidates(jws, plane, di, refGen, m);
    forall c | c in cs
      ensures c.jw in jws
    {
      var k :| 0 <= k < |cs| && cs[k] == c;
      CandidatesSound(jws, k, plane, di, refGen, m);
    }
  }

  /** A permutation of a list without duplicates has none, and the positions of its jetways differ. */
  lemma PermutedDistinct(cs: seq<Candidate>, ds: seq<Candidate>)
    requires NoDup(JwsOf(ds)) && multiset(JwsOf(cs)) == multiset(JwsOf(ds))
    ensures forall a, b :: 0 <= a < b < |cs| ==> cs[a].jw != cs[b].jw
  {
    var js := JwsOf(cs);
    assert NoDup(js) by {
      forall x | x in js
        ensures multiset(js)[x] <= 1
      {
        assert x in multiset(JwsOf(ds));
      }
    }
    forall a, b | 0 <= a < b < |cs|
      ensures cs[a].jw != cs[b].jw
    {
      NoDupDistinct(js, a, b);
    }
  }

  /** The reference generation after `check_ref_frame_shift` with the new reference. */
  function RefGenAfter(refGen: nat, latRef: real, lonRef: real, latR: real, lonR: real): nat
  {
    refGen + (if latR != latRef || lonR != lonRef then 1 else 0)
  }

  /** The jetways `find_nearest_jws` filters: every scenery's, then the zero-config table as the reference frame check leaves it. */
  function NearestPool(world: JwWorld, latR: real, lonR: real, sceneries: seq<seq<SamJw>>): seq<SamJw>
    reads world
  {
    var g := RefGenAfter(world.refGen, world.latRef, world.lonRef, latR, lonR);
    Flatten(sceneries) + (if world.zcRefGen < g then [] else world.zcJws)
  }

  /** The candidates `find_nearest_jws` keeps from its pool, against the average door and in the new generation. */
  function NearestCandidates(world: JwWorld, latR: real, lonR: real, sceneries: seq<seq<SamJw>>, doors: seq<DoorInfo>,
                             plane: PlanePose, m: Math): seq<Candidate>
    requires |doors| > 0
    reads world, NearestPool(world, latR, lonR, sceneries)
  {
    Candidates(NearestPool(world, latR, lonR, sceneries), plane, AvgDoor(doors),
               RefGenAfter(world.refGen, world.latRef, world.lonRef, latR, lonR), m)
  }

  /**
   * `find_nearest_jws`: for a plane with doors, the candidates of all
   * sceneries and of the zero-config table (as left by the reference frame
   * check), filtered against the average door, in an order in which no
   * candidate is less than its predecessor; the zero-config jetways among
   * them are renamed in that order and every returned jetway is locked.  A
   * plane without doors gets 0 and the list and the world are left alone.
   */
  method FindNearestJws(world: JwWorld, latR: real, lonR: real, doors: seq<DoorInfo>, plane: PlanePose,
                        sceneries: seq<seq<SamJw>>, nearestIn: seq<Candidate>, m: Math)
    returns (n: nat, nearest: seq<Candidate>)
    requires world.Valid() && NoDup(Flatten(sceneries) + world.zcJws)
    modifies world, (set j | j in Flatten(sceneries) + world.zcJws)`name, (set j | j in Flatten(sceneries) + world.zcJws)`locked
    ensures |doors| == 0 ==> n == 0 && nearest == nearestIn && unchanged(world)
    ensures |doors| > 0 ==>
      world.Valid() && world.latRef == latR && world.lonRef == lonR
      && world.refGen == old(RefGenAfter(world.refGen, world.latRef, world.lonRef, latR, lonR))
      && world.zcJws == (if old(world.zcRefGen) < world.refGen then [] else old(world.zcJws))
    ensures |doors| > 0 ==>
      n == |nearest| && AdjacentOrdered(nearest)
      && multiset(nearest) == old(multiset(NearestCandidates(world, latR, lonR, sceneries, doors, plane, m)))
    ensures |doors| > 0 ==> forall k :: 0 <= k < |nearest| ==>
      nearest[k].jw.locked && (nearest[k].jw.isZcJw ==> nearest[k].jw.name == ZcName(nearest[k].jw.standId, ZcOrdinals(nearest)[k]))
  {
    if |doors| == 0 {
      return 0, nearestIn;
    }
    ghost var pool := NearestPool(world, latR, lonR, sceneries);
    if pool != Flatten(sceneries) + world.zcJws {
      NoDupPrefix(Flatten(sceneries), world.zcJws);
      assert pool == Flatten(sceneries) + [];
    }
    nearest := GatherNearest(world, latR, lonR, doors, plane, sceneries, pool, NearestCandidates(world, latR, lonR, sceneries, doors, plane, m), m);
    NameAndLock(nearest);
    n := |nearest|;
  }

  /**
   * The part of `find_nearest_jws` up to the sort: frame check, average
   * door, filtering and ordering, which yields the candidates of the pool
   * the frame check leaves, ordered.
   */
  method GatherNearest(world: JwWorld, latR: real, lonR: real, doors: seq<DoorInfo>, plane: PlanePose,
                       sceneries: seq<seq<SamJw>>, ghost pool: seq<SamJw>, ghost want: seq<Candidate>, m: Math)
    returns (nearest: seq<Candidate>)
    requires world.Valid() && |doors| > 0
    requires pool == NearestPool(world, latR, lonR, sceneries) && NoDup(pool)
    requires want == Candidates(pool, plane, AvgDoor(doors), RefGenAfter(world.refGen, world.latRef, world.lonRef, latR, lonR), m)
    modifies world
    ensures world.Valid() && world.latRef == latR && world.lonRef == lonR
      && world.refGen == old(RefGenAfter(world.refGen, world.latRef, world.lonRef, latR, lonR))
      && world.zcJws == (if old(world.zcRefGen) < world.refGen then [] else old(world.zcJws))
    ensures AdjacentOrdered(nearest) && multiset(nearest) == multiset(want)
    ensures forall a, b :: 0 <= a < b < |nearest| ==> nearest[a].jw != nearest[b].jw
    ensures forall c :: c in nearest ==> c.jw in pool
  {
    ghost var g := RefGenAfter(world.refGen, world.latRef, world.lonRef, latR, lonR);
    world.CheckRefFrameShift(latR, lonR);
    assert unchanged(pool);
    assert want == Candidates(pool, plane, AvgDoor(doors), g, m);
    assert pool == Flatten(sceneries) + world.zcJws && g == world.refGen;
    nearest := FilterSorted(sceneries, world.zcJws, pool, want, doors, plane, world.refGen, m);
  }

  /** Average door, filtering and sort of `find_nearest_jws`, over the world as the frame check left it. */
  method FilterSorted(sceneries: seq<seq<SamJw>>, zc: seq<SamJw>, ghost pool: seq<SamJw>, ghost want: seq<Candidate>,
                      doors: seq<DoorInfo>, plane: PlanePose, refGen: nat, m: Math)
    returns (nearest: seq<Candidate>)
    requires pool == Flatten(sceneries) + zc && NoDup(pool) && |doors| > 0
    requires want == Candidates(pool, plane, AvgDoor(doors), refGen, m)
    ensures AdjacentOrdered(nearest) && multiset(nearest) == multiset(want)
    ensures forall a, b :: 0 <= a < b < |nearest| ==> nearest[a].jw != nearest[b].jw
    ensures forall c :: c in nearest ==> c.jw in pool
  {
    CandidatesNoDup(pool, plane, AvgDoor(doors), refGen, m);
    var di := AverageDoor(doors);
    var found := CollectCandidates(sceneries, zc, plane, di, refGen, m);
    assert unchanged(pool);
    assert want == Candidates(pool, plane, di, refGen, m);
    nearest := SortDistinct(found, pool);
  }

  /** The sort of `find_nearest_jws` over candidates of different jetways of a pool: still different, still from the pool. */
  method SortDistinct(found: seq<Candidate>, ghost pool: seq<SamJw>) returns (nearest: seq<Candidate>)
    requires NoDup(JwsOf(found)) && forall c :: c in found ==> c.jw in pool
    ensures AdjacentOrdered(nearest) && multiset(nearest) == multiset(found)
    ensures forall a, b :: 0 <= a < b < |nearest| ==> nearest[a].jw != nearest[b].jw
    ensures forall c :: c in nearest ==> c.jw in pool
  {
    nearest := SortCandidates(found);
    PermutedDistinct(nearest, found);
    forall c | c in nearest
      ensures c.jw in pool
    {
      assert c in multiset(found);
    }
  }

  /** The naming and locking loops of `find_nearest_jws`, over jetways that are all different. */
  method NameAndLock(cs: seq<Candidate>)
    requires forall a, b :: 0 <= a < b < |cs| ==> cs[a].jw != cs[b].jw
    modifies (set c | c in cs :: c.jw)`name, (set c | c in cs :: c.jw)`locked
    ensures old(AdjacentOrdered(cs)) ==> AdjacentOrdered(cs)
    ensures forall k :: 0 <= k < |cs| ==>
      cs[k].jw.locked && (cs[k].jw.isZcJw ==> cs[k].jw.name == ZcName(cs[k].jw.standId, ZcOrdinals(cs)[k]))
  {
    NameZcJws(cs);
    LockAll(cs);
  }
}
