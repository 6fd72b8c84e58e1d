/**
 * os_dgs.cpp: the visual docking guidance system (DGS).  A module-level
 * machine engages the stand nearest to the arriving plane, tracks the plane
 * towards its stop position and publishes what the guidance displays show
 * through the "opensam/dgs/..." datarefs (an array rewritten every cycle)
 * and the compatible "sam/..." datarefs.  The DGS objects of the scenery
 * read these values from draw callbacks, and the first aligned DGS object
 * close to the stand is associated with it.
 *
 * The state codes are those of the C enum, so that `state <= INACTIVE`,
 * `state > ACTIVE` and the `default` arm mean what they mean there.
 *
 * What the simulator provides is a parameter: the plane's position and
 * flags, the clock, the light level, the sine wave that drives the
 * marshaller's arm, and the trigonometric functions.  The stand search
 * works on the stands already expressed in the stand's frame (see `Cand`).
 */
module OsDgs {
  import opened Wrappers
  import opened Strings
  import opened OpenSamH

  // ---------------------------------------------------------------------
  // Constants
  // ---------------------------------------------------------------------

  /** Capture: angle to the centre line and distance to the stand. */
  const CapA: real := 15.0
  const CapZ: real := 140.0
  /** Azimuth guidance: angle, largest value displayed, distance. */
  const AziA: real := 15.0
  const AziDispA: real := 10.0
  const AziZ: real := 90.0
  /** The stop window: nose wheel along the centre line, main wheel across. */
  const GoodZ: real := 0.5
  const GoodX: real := 2.0
  /** The remaining distance is shown from here on. */
  const RemZ: real := 12.0
  /** The box around the stand a DGS object must lie in. */
  const MaxDgsToStandX: real := 10.0
  const MaxDgsToStandZ: real := 80.0
  /** The distance from DGS to stand assumed for the azimuth. */
  const DgsDist: real := 20.0
  /** The weight of the lateral offset in the final stand comparison. */
  const AziWeight: real := 4.0
  /** The "no stand yet" distance of the search and the reset values of an association. */
  const Far: real := 10000000000.0

  /** The codes of `state_t`. */
  const Disabled := 0
  const Inactive := 1
  const Active := 2
  const Engaged := 3
  const Track := 4
  const Good := 5
  const Bad := 6
  const Parked := 7
  const Chocks := 8
  const Done := 9

  /** The indices of the "opensam/dgs/..." datarefs, and their number. */
  const DrIdent := 0
  const DrStatus := 1
  const DrLr := 2
  const DrTrack := 3
  const DrAzimuth := 4
  const DrDistance := 5
  const DrDistance0 := 6
  const DrDistance01 := 7
  const DrIcao0 := 8
  const DgsDrNum := 12

  /** The indices of the "sam/..." datarefs and the values of their status. */
  const Sam1DrStatus := 0
  const Sam1DrLateral := 1
  const Sam1DrLongitudinal := 2
  const Sam1Track: real := 1.0
  const Sam1StopZone: real := 2.0
  const Sam1Idle: real := 3.0
  /** A lateral value that switches a SAM1 display off. */
  const Sam1LateralOff: real := 10.0

  // ---------------------------------------------------------------------
  // Global values: the UTC clock digits and the display brightness
  // ---------------------------------------------------------------------

  /** C integer division and remainder, truncating toward zero. */
  function CDiv(a: int, b: int): (q: int)
    requires b > 0
    ensures a >= 0 ==> q * b <= a < q * b + b
    ensures a < 0 ==> q * b - b < a <= q * b
  {
    if a >= 0 then a / b else -((-a) / b)
  }

  datatype Utc = Utc(m0: int, m1: int, h0: int, h1: int)

  /** The four clock digits of `dgs_state_machine` from the zulu minutes and hours. */
  function UtcDigits(zm: int, zh: int): (u: Utc)
    ensures 10 * u.m1 + u.m0 == zm && 10 * u.h1 + u.h0 == zh
    ensures zm >= 0 ==> 0 <= u.m0 <= 9 && 0 <= u.m1
    ensures zh >= 0 ==> 0 <= u.h0 <= 9 && 0 <= u.h1
    ensures 0 <= zm <= 59 ==> u.m1 <= 5
    ensures 0 <= zh <= 23 ==> u.h1 <= 2
  {
    var m1 := CDiv(zm, 10);
    var h1 := CDiv(zh, 10);
    Utc(zm - 10 * m1, m1, zh - 10 * h1, h1)
  }

  /** `vdgs_brightness` from powf(1 - lights, 1.5), which is given. */
  function Brightness(pow15: real): (b: real)
    ensures 0.0 <= pow15 <= 1.0 ==> 0.025 <= b <= 1.0
    ensures pow15 == 0.0 ==> b == 0.025
  {
    0.025 + (1.0 - 0.025) * pow15
  }

  // ---------------------------------------------------------------------
  // `read_sam1_icao_acc`
  // ---------------------------------------------------------------------

  /** One character of the plane's ICAO type as the SAM1 displays read it. */
  function IcaoCode(c: char): (v: int)
    ensures IsUpper(c) ==> 1 <= v <= 26
    ensures IsDigit(c) ==> 27 <= v <= 36
  {
    if IsAlpha(c) then (c as int - 'A' as int) + 1 else (c as int - '0' as int) + 27
  }

  function IcaoCodes(s: string): (r: seq<int>)
    ensures |r| == |s|
  {
    seq(|s|, i requires 0 <= i < |s| => IcaoCode(s[i]))
  }

  /** Letters and digits get different codes, and different letters or digits different codes. */
  lemma IcaoCodeInjective(c: char, d: char)
    requires IsUpper(c) || IsDigit(c)
    requires IsUpper(d) || IsDigit(d)
    requires IcaoCode(c) == IcaoCode(d)
    ensures c == d
  {
  }

  /** A blank in a sanitised type reads like the letter 'K': the digit formula gives ' ' the code 11. */
  lemma BlankReadsAsK()
    ensures IcaoCode(' ') == IcaoCode('K') == 11
  {
  }

  /**
   * `read_sam1_icao_acc`: no array asks for the size (4); a request outside
   * the 4 characters reads nothing; otherwise min(n, 4 - ofs) codes from
   * position ofs are written to the front of the array.
   */
  method ReadSam1IcaoAcc(icao: string, values: array?<int>, ofs: int, n: int) returns (r: int)
    requires |icao| == 4
    requires values != null && n > 0 ==> n <= values.Length
    modifies values
    ensures values == null ==> r == 4
    ensures values != null && (n <= 0 || ofs < 0 || ofs >= 4) ==> r == 0 && values[..] == old(values[..])
    ensures values != null && n > 0 && 0 <= ofs < 4 ==>
      r == (if n < 4 - ofs then n else 4 - ofs) &&
      values[..r] == IcaoCodes(icao[ofs..ofs + r]) && values[r..] == old(values[r..])
  {
    if values == null {
      return 4;
    }
    if n <= 0 || ofs < 0 || ofs >= 4 {
      return 0;
    }
    r := if n < 4 - ofs then n else 4 - ofs;
    var i := 0;
    while i < r
      invariant 0 <= i <= r
      invariant values[..i] == IcaoCodes(icao[ofs..ofs + i])
      invariant values[r..] == old(values[r..])
    {
      values[i] := IcaoCode(icao[ofs + i]);
      i := i + 1;
      assert values[..i] == values[..i - 1] + [values[i - 1]];
      assert icao[ofs..ofs + i] == icao[ofs..ofs + i - 1] + [icao[ofs + i - 1]];
    }
  }

  // ---------------------------------------------------------------------
  // Stands and the association of a DGS object with the nearest stand
  // ---------------------------------------------------------------------

  /** A stand in the current frame: its identity, true heading with sine and cosine, and position. */
  datatype StandGeo = StandGeo(id: nat, hdgt: real, sinHdgt: real, cosHdgt: real, x: real, z: real)

  /** `Stand::global_2_stand`: global x/z into the stand frame (x across, z towards the plane). */
  function Global2Stand(s: StandGeo, x: real, z: real): (xz: (real, real))
    ensures s.sinHdgt == 0.0 && s.cosHdgt == 1.0 ==> xz == (x - s.x, z - s.z)
  {
    var dx := x - s.x;
    var dz := z - s.z;
    (dx * s.cosHdgt + dz * s.sinHdgt, -dx * s.sinHdgt + dz * s.cosHdgt)
  }

  /** With a true sine/cosine pair the frame change keeps distances to the stand. */
  lemma Global2StandKeepsDistance(s: StandGeo, x: real, z: real)
    requires s.sinHdgt * s.sinHdgt + s.cosHdgt * s.cosHdgt == 1.0
    ensures var (xl, zl) := Global2Stand(s, x, z);
      xl * xl + zl * zl == (x - s.x) * (x - s.x) + (z - s.z) * (z - s.z)
  {
    var dx, dz, sn, cs := x - s.x, z - s.z, s.sinHdgt, s.cosHdgt;
    calc {
      (dx * cs + dz * sn) * (dx * cs + dz * sn) + (-dx * sn + dz * cs) * (-dx * sn + dz * cs);
      dx * dx * (cs * cs + sn * sn) + dz * dz * (sn * sn + cs * cs);
      dx * dx + dz * dz;
    }
  }

  /**
   * The association state: whether the stand has a DGS, and the local z,
   * the absolute local x and the time of the DGS associated last.
   */
  datatype Assoc = Assoc(on: bool, z: real, x: real, ts: real)

  const Unassociated := Assoc(false, -Far, Far, Far)

  /** Without a DGS the association holds its reset values. */
  predicate AssocOk(a: Assoc)
  {
    !a.on ==> a == Unassociated
  }

  /** The box around the stand in which a DGS must stand, aligned with the stand or facing it (SAM1). */
  predicate InDgsBox(xl: real, zl: real, hdgDiff: real)
  {
    Abs(xl) <= MaxDgsToStandX && -MaxDgsToStandZ <= zl <= -5.0 && !Between(Abs(hdgDiff), 10.0, 170.0)
  }

  /** The outcome of `is_dgs_active` for one object: accepted, the new association, whether it is a newly associated DGS. */
  datatype Verdict = Verdict(accepted: bool, assoc: Assoc, isNew: bool)

  /**
   * `is_dgs_active` on an object at (xl, zl) in the stand frame whose heading
   * differs by hdgDiff = RA(stand hdgt - psi) from the stand's.  Primarily the
   * DGS with the largest z is kept, but one nearly as far forward and more
   * than 1 m closer to the centre line takes over.
   */
  function Associate(a: Assoc, xl: real, zl: real, hdgDiff: real, now: real): (v: Verdict)
    ensures v.accepted ==> InDgsBox(xl, zl, hdgDiff) && v.assoc.on
    ensures !v.accepted ==> v.assoc == a && !v.isNew
    ensures v.isNew ==> v.accepted && v.assoc == Assoc(true, zl, Abs(xl), now)
    ensures v.accepted && !v.isNew ==> v.assoc == a.(on := true)
  {
    if a.on && (zl < a.z - 2.0 || Abs(xl) > a.x) then Verdict(false, a, false)
    else if !InDgsBox(xl, zl, hdgDiff) then Verdict(false, a, false)
    else if (zl > a.z - 2.0 && Abs(xl) < a.x - 1.0) || zl > a.z then Verdict(true, Assoc(true, zl, Abs(xl), now), true)
    else Verdict(true, a.(on := true), false)
  }

  /** An object clearly behind the associated DGS, or further off the centre line, is refused. */
  lemma AssociateRefusesDominated(a: Assoc, xl: real, zl: real, hdgDiff: real, now: real)
    requires a.on && (zl < a.z - 2.0 || Abs(xl) > a.x)
    ensures !Associate(a, xl, zl, hdgDiff, now).accepted
  {
  }

  /** Without an association, every object in the box is accepted and associated. */
  lemma AssociateFirst(xl: real, zl: real, hdgDiff: real, now: real)
    requires InDgsBox(xl, zl, hdgDiff)
    ensures Associate(Unassociated, xl, zl, hdgDiff, now) == Verdict(true, Assoc(true, zl, Abs(xl), now), true)
  {
  }

  /** The associated DGS keeps its association when it asks again, at any later time. */
  lemma AssociateStable(a: Assoc, xl: real, zl: real, hdgDiff: real, now: real, later: real)
    requires Associate(a, xl, zl, hdgDiff, now).isNew
    ensures Associate(Associate(a, xl, zl, hdgDiff, now).assoc, xl, zl, hdgDiff, later)
      == Verdict(true, Associate(a, xl, zl, hdgDiff, now).assoc, false)
  {
  }

  /** Associating keeps the reset values of an unassociated stand. */
  lemma AssociateKeepsOk(a: Assoc, xl: real, zl: real, hdgDiff: real, now: real)
    requires AssocOk(a)
    ensures AssocOk(Associate(a, xl, zl, hdgDiff, now).assoc)
  {
  }

  // ---------------------------------------------------------------------
  // `find_nearest_stand`
  // ---------------------------------------------------------------------

  /**
   * One stand as the search sees it: the stand, whether its scenery's box
   * holds the plane, whether its frame is stale (its coordinates are
   * recomputed when it is looked at), the plane's heading relative to the
   * stand, the nose wheel in the stand frame, the angle atan(nw_x / nw_z)
   * in degrees, and the plain and the weighted (4·x) distance of the nose
   * wheel.
   */
  datatype Cand = Cand(geo: StandGeo, inBbox: bool, stale: bool, localHdgt: real,
                       nwX: real, nwZ: real, angle: real, d: real, dw: real)

  /** The stand is looked at: the plane is in the scenery's box and faces the stand. */
  predicate Looked(c: Cand)
  {
    c.inBbox && Abs(c.localHdgt) <= 90.0
  }

  /** The plane passes the stand sideways, outside a ±60° sector of its own direction. */
  predicate DriveBy(c: Cand)
  {
    var rel := RA(-c.angle - c.localHdgt);
    (c.nwX > 10.0 && rel < -60.0) || (c.nwX < -10.0 && rel > 60.0)
  }

  /** The stand may be the nearest: looked at, within 190 m, not behind, and if further than 10 m in its ±60° sector and not passed by. */
  predicate Eligible(c: Cand)
  {
    Looked(c) && c.d <= CapZ + 50.0 && c.nwZ >= -4.0 &&
    (c.nwZ > 10.0 ==> Abs(c.angle) <= 60.0 && !DriveBy(c))
  }

  /** The distance to beat after the first n candidates. */
  function Bound(cs: seq<Cand>, b: Option<nat>): real
    requires b.Some? ==> b.value < |cs|
  {
    if b.Some? then cs[b.value].dw else Far
  }

  /** The search's choice among the first n candidates: a candidate replaces the current one only when strictly nearer. */
  function BestUpTo(cs: seq<Cand>, n: nat): (b: Option<nat>)
    requires n <= |cs|
    ensures b.Some? ==> b.value < n
  {
    if n == 0 then None
    else
      var b := BestUpTo(cs, n - 1);
      if Eligible(cs[n - 1]) && cs[n - 1].dw < Bound(cs, b) then Some(n - 1) else b
  }

  /** The chosen stand is eligible, nearer than the start distance, no farther than any eligible stand, and strictly nearer than every eligible stand before it. */
  lemma {:induction false} BestIsFirstNearest(cs: seq<Cand>, n: nat)
    requires n <= |cs|
    ensures var b := BestUpTo(cs, n);
      (b.Some? ==> (Eligible(cs[b.value]) && cs[b.value].dw < Far &&
         (forall j :: 0 <= j < n && Eligible(cs[j]) ==> cs[b.value].dw <= cs[j].dw) &&
         (forall j :: 0 <= j < b.value && Eligible(cs[j]) ==> cs[b.value].dw < cs[j].dw))) &&
      (b.None? <==> forall j :: 0 <= j < n && Eligible(cs[j]) ==> cs[j].dw >= Far)
  {
    if n > 0 {
      BestIsFirstNearest(cs, n - 1);
    }
  }

  /** Some stand looked at had a stale frame: looking at it drops the association. */
  predicate AnyStale(cs: seq<Cand>)
  {
    exists j :: 0 <= j < |cs| && Looked(cs[j]) && cs[j].stale
  }

  /** The loop of `find_nearest_stand`, proved to make the choice `BestUpTo` describes. */
  method FindNearest(cs: seq<Cand>) returns (best: Option<nat>, refreshed: bool)
    ensures best == BestUpTo(cs, |cs|)
    ensures refreshed <==> AnyStale(cs)
  {
    var dist := Far;
    best := None;
    refreshed := false;
    var i := 0;
    while i < |cs|
      invariant 0 <= i <= |cs|
      invariant best == BestUpTo(cs, i) && dist == Bound(cs, best)
      invariant refreshed <==> exists j :: 0 <= j < i && Looked(cs[j]) && cs[j].stale
    {
      var c := cs[i];
      if c.inBbox && Abs(c.localHdgt) <= 90.0 {
        if c.stale {
          refreshed := true;
        }
        if c.d <= CapZ + 50.0 && c.nwZ >= -4.0 && (c.nwZ > 10.0 ==> Abs(c.angle) <= 60.0 && !DriveBy(c)) {
          if c.dw < dist {
            dist := c.dw;
            best := Some(i);
          }
        }
      }
      i := i + 1;
    }
  }

  // ---------------------------------------------------------------------
  // The plane as seen from the engaged stand
  // ---------------------------------------------------------------------

  /** sin and atan in degrees, as the simulator computes them. */
  datatype Trig = Trig(sinDeg: real -> real, atanDeg: real -> real)

  /** The plane's position, heading (true), gear positions along its axis, and state. */
  datatype Plane = Plane(x: real, z: real, psi: real, noseGearZ: real, mainGearZ: real,
                         beaconOn: bool, parkbrakeSet: bool, dontConnectJetway: bool, icao: string)

  /**
   * The observation of one cycle: heading relative to the stand, nose wheel
   * and main wheel in the stand frame, the reference point that blends from
   * main to nose wheel between 26 m and 6 m, and the azimuths of the
   * reference point and of the nose wheel.
   */
  datatype Obs = Obs(localHdgt: real, nwX: real, nwZ: real, mwX: real, mwZ: real,
                     xDr: real, zDr: real, azimuth: real, azimuthNw: real)

  /** The blend factor of the reference point: 0 at the nose wheel (6 m and nearer), 1 at the main wheel (26 m and farther). */
  function Blend(nwZ: real): (a: real)
    ensures 0.0 <= a <= 1.0
    ensures nwZ <= 6.0 ==> a == 0.0
    ensures nwZ >= 26.0 ==> a == 1.0
  {
    Clamp((nwZ - 6.0) / 20.0, 0.0, 1.0)
  }

  function Observe(s: StandGeo, p: Plane, t: Trig): (o: Obs)
    ensures o.nwZ > 0.0 ==> o.azimuthNw == t.atanDeg(o.nwX / (o.nwZ + 0.5 * DgsDist))
    ensures o.nwZ <= 0.0 ==> o.azimuthNw == 0.0
    ensures Abs(o.xDr) <= 0.5 || o.zDr <= 0.0 ==> o.azimuth == 0.0
  {
    var (lx, lz) := Global2Stand(s, p.x, p.z);
    var lh := RA(p.psi - s.hdgt);
    var sn := t.sinDeg(lh);
    var nwZ := lz - p.noseGearZ;
    var nwX := lx + p.noseGearZ * sn;
    var mwZ := lz - p.mainGearZ;
    var mwX := lx + p.mainGearZ * sn;
    var a := Blend(nwZ);
    var zRef := (1.0 - a) * p.noseGearZ + a * p.mainGearZ;
    var zDr := lz - zRef;
    var xDr := lx + zRef * sn;
    var az := if Abs(xDr) > 0.5 && zDr > 0.0 then t.atanDeg(xDr / (zDr + 0.5 * DgsDist)) else 0.0;
    var azNw := if nwZ > 0.0 then t.atanDeg(nwX / (nwZ + 0.5 * DgsDist)) else 0.0;
    Obs(lh, nwX, nwZ, mwX, mwZ, xDr, zDr, az, azNw)
  }

  /** Near the stop position (nose wheel within 6 m) the plane is guided by its nose wheel. */
  lemma ObserveNearUsesNoseWheel(s: StandGeo, p: Plane, t: Trig)
    requires Observe(s, p, t).nwZ <= 6.0
    ensures Observe(s, p, t).zDr == Observe(s, p, t).nwZ && Observe(s, p, t).xDr == Observe(s, p, t).nwX
  {
  }

  /** Far out (nose wheel 26 m and more) the plane is guided by its main wheel. */
  lemma ObserveFarUsesMainWheel(s: StandGeo, p: Plane, t: Trig)
    requires Observe(s, p, t).nwZ >= 26.0
    ensures Observe(s, p, t).zDr == Observe(s, p, t).mwZ && Observe(s, p, t).xDr == Observe(s, p, t).mwX
  {
  }

  // ---------------------------------------------------------------------
  // The transition table and the guidance of one cycle
  // ---------------------------------------------------------------------

  /** The plane's nose wheel is in the stop window and its main wheel on the centre line. */
  predicate LocGood(o: Obs)
  {
    Abs(o.mwX) <= GoodX && Abs(o.nwZ) <= GoodZ
  }

  /** Within the capture distance and angle of the stand. */
  predicate Captured(o: Obs)
  {
    o.nwZ - GoodZ <= CapZ && Abs(o.azimuthNw) <= CapA
  }

  /** What a cycle knows besides the observation. */
  datatype Ctx = Ctx(now: real, timestamp: real, beaconOn: bool, parkbrakeSet: bool, phase180: bool,
                     isMarshaller: bool, dontConnectJetway: bool, tlsChocks: bool,
                     lrPrev: int, trackPrev: int, distancePrev: real)

  /** The published values of a cycle before encoding, and the delay to the next cycle. */
  datatype Out = Out(status: int, track: int, lr: int, azimuth: real, distance: real, delay: real)

  /** How a cycle ends: normally, or by switching the DGS off (and asking for the jetways). */
  datatype Exit = Stay | SwitchOff(dock: bool)

  /** The decision of one cycle: the next state, the outputs, how it ends, whether the ToLiss chocks are set. */
  datatype Step = Step(next: int, out: Out, exit: Exit, setChocks: bool)

  /** The displayed azimuth: clamped to ±10°, scaled to ±4 and truncated to steps of 0.5. */
  function DisplayAzimuth(az: real): (r: real)
    ensures -4.0 <= r <= 4.0
    ensures (r * 2.0).Floor as real == r * 2.0
    ensures var s := Clamp(az, -AziDispA, AziDispA) * 4.0 / AziDispA;
      (s >= 0.0 ==> 0.0 <= r <= s < r + 0.5) && (s < 0.0 ==> r - 0.5 < s <= r <= 0.0)
  {
    var s := Clamp(az, -AziDispA, AziDispA) * 4.0 / AziDispA;
    Trunc(s * 2.0) as real / 2.0
  }

  /** The steering arrow: 2 when the plane must turn left by more than 1.5°, 1 to the right, 0 otherwise. */
  function Steer(dHdgt: real): (lr: int)
    ensures lr == 2 <==> dHdgt < -1.5
    ensures lr == 1 <==> dHdgt > 1.5
    ensures lr == 0 <==> -1.5 <= dHdgt <= 1.5
  {
    if dHdgt < -1.5 then 2 else if dHdgt > 1.5 then 1 else 0
  }

  /**
   * The guidance in TRACK within capture: lead-in only far out or off the
   * azimuth sector; else the azimuth display, the steering arrow towards
   * the heading that leads back to the centre line, and the distance bar
   * from 6 m on, polled every 0.03 s.  Between two half-waves of the
   * marshaller's arm the arrow keeps its old value, and a marshaller
   * switches to the distance bar only on the half-wave.
   */
  function Guide(o: Obs, c: Ctx): (r: Out)
    ensures r.status == 1
    ensures r.track == 1 <==> o.nwZ - GoodZ > AziZ || Abs(o.azimuthNw) > AziA
    ensures r.track == 3 <==> !(o.nwZ - GoodZ > AziZ || Abs(o.azimuthNw) > AziA) && o.nwZ - GoodZ <= RemZ / 2.0 &&
                              (c.phase180 || !c.isMarshaller || c.trackPrev != 2)
    ensures r.track != 1 ==> -4.0 <= r.azimuth <= 4.0 && (r.lr == (if c.phase180 then Steer(-3.5 * Clamp(o.azimuth, -AziA, AziA) - o.localHdgt) else c.lrPrev))
    ensures r.delay == (if r.track != 1 && o.nwZ - GoodZ <= RemZ / 2.0 then 0.03 else 0.2)
  {
    var dist := o.nwZ - GoodZ;
    if dist > AziZ || Abs(o.azimuthNw) > AziA then Out(1, 1, 0, o.azimuth, dist, 0.2)
    else
      var az := Clamp(o.azimuth, -AziA, AziA);
      var lr := Steer(-3.5 * az - o.localHdgt);
      var shown := DisplayAzimuth(az);
      var near := dist <= RemZ / 2.0;
      var tr := if near then 3 else 2;
      var delay := if near then 0.03 else 0.2;
      if c.phase180 then Out(1, tr, lr, shown, dist, delay)
      else if c.isMarshaller && tr == 3 && c.trackPrev == 2 then Out(1, 2, c.lrPrev, shown, c.distancePrev, delay)
      else Out(1, tr, c.lrPrev, shown, dist, delay)
  }

  /** The switch of `dgs_state_machine` on the current state. */
  function Decide(st: int, o: Obs, c: Ctx): (r: Step)
    ensures r.exit.SwitchOff? ==> r.next == Inactive && (st == Bad || st == Done)
    ensures r.setChocks ==> st == Parked && r.next != Parked
  {
    var base := Out(0, 0, 0, o.azimuth, o.nwZ - GoodZ, 0.2);
    if st == Engaged then
      Step(if !c.beaconOn then Done else if Captured(o) then Track else Engaged, base, Stay, false)
    else if st == Track then
      if !c.beaconOn then Step(Done, base, Stay, false)
      else if LocGood(o) then Step(Good, base, Stay, false)
      else if o.nwZ < -GoodZ then Step(Bad, base, Stay, false)
      else if !Captured(o) then Step(Engaged, base, Stay, false)
      else Step(Track, Guide(o, c), Stay, false)
    else if st == Good then
      Step(if !LocGood(o) then Track else if c.parkbrakeSet || !c.beaconOn then Parked else Good,
           base.(status := 2, lr := 3), Stay, false)
    else if st == Bad then
      if !c.beaconOn && c.now > c.timestamp + 5.0 then Step(Inactive, base, SwitchOff(false), false)
      else if o.nwZ >= -GoodZ then Step(Track, base, Stay, false)
      else Step(Bad, base.(status := 4, lr := 3), Stay, false)
    else if st == Parked then
      var out := base.(status := 3, lr := 0);
      if c.beaconOn then Step(Parked, out, Stay, false)
      else if !c.dontConnectJetway && c.tlsChocks then Step(if c.isMarshaller then Done else Chocks, out, Stay, true)
      else Step(Done, out, Stay, false)
    else if st == Chocks then
      Step(if c.now > c.timestamp + 5.0 then Done else Chocks, base.(status := 6), Stay, false)
    else if st == Done then
      if c.now > c.timestamp + 3.0 then Step(Inactive, base, SwitchOff(!c.dontConnectJetway), false)
      else Step(Done, base, Stay, false)
    else Step(st, base, Stay, false)
  }

  /** The documented transitions between the guidance states. */
  predicate Edge(a: int, b: int)
  {
    (a == Engaged && b in {Track, Done}) ||
    (a == Track && b in {Done, Good, Bad, Engaged}) ||
    (a == Good && b in {Track, Parked}) ||
    (a == Bad && b in {Inactive, Track}) ||
    (a == Parked && b in {Done, Chocks}) ||
    (a == Chocks && b == Done) ||
    (a == Done && b == Inactive)
  }

  /** A cycle either stays or follows one documented transition. */
  lemma DecideFollowsEdges(st: int, o: Obs, c: Ctx)
    ensures var r := Decide(st, o, c); r.next == st || Edge(st, r.next)
  {
  }

  /** ENGAGED: TRACK exactly when the beacon is on and the plane is captured; DONE exactly when the beacon is off. */
  lemma EngagedTransitions(o: Obs, c: Ctx)
    ensures Decide(Engaged, o, c).next == Track <==> c.beaconOn && o.nwZ - GoodZ <= CapZ && Abs(o.azimuthNw) <= CapA
    ensures Decide(Engaged, o, c).next == Done <==> !c.beaconOn
  {
  }

  /** TRACK tests in order: beacon off, stop window, past the stop, out of capture. */
  lemma TrackTransitions(o: Obs, c: Ctx)
    ensures var n := Decide(Track, o, c).next;
      (n == Done <==> !c.beaconOn) &&
      (n == Good <==> c.beaconOn && LocGood(o)) &&
      (n == Bad <==> c.beaconOn && !LocGood(o) && o.nwZ < -GoodZ) &&
      (n == Engaged <==> c.beaconOn && !LocGood(o) && o.nwZ >= -GoodZ && !Captured(o)) &&
      (n == Track <==> c.beaconOn && !LocGood(o) && o.nwZ >= -GoodZ && Captured(o))
  {
  }

  /** GOOD goes back to TRACK when the plane leaves the window, else to PARKED on parking brake or beacon off. */
  lemma GoodTransitions(o: Obs, c: Ctx)
    ensures Decide(Good, o, c).next == Track <==> !LocGood(o)
    ensures Decide(Good, o, c).next == Parked <==> LocGood(o) && (c.parkbrakeSet || !c.beaconOn)
  {
  }

  /** BAD switches off 5 s after the beacon went off, and returns to TRACK once the nose wheel is back in front of the window. */
  lemma BadTransitions(o: Obs, c: Ctx)
    ensures Decide(Bad, o, c).exit.SwitchOff? <==> !c.beaconOn && c.now > c.timestamp + 5.0
    ensures Decide(Bad, o, c).next == Track <==> !(!c.beaconOn && c.now > c.timestamp + 5.0) && o.nwZ >= -GoodZ
  {
  }

  /** PARKED waits for beacon off; it sets the ToLiss chocks when they exist and jetways may connect, and shows CHOCKS only without a marshaller. */
  lemma ParkedTransitions(o: Obs, c: Ctx)
    ensures Decide(Parked, o, c).next == Parked <==> c.beaconOn
    ensures Decide(Parked, o, c).setChocks <==> !c.beaconOn && !c.dontConnectJetway && c.tlsChocks
    ensures Decide(Parked, o, c).next == Chocks <==> !c.beaconOn && !c.dontConnectJetway && c.tlsChocks && !c.isMarshaller
  {
  }

  /** CHOCKS lasts 5 s and DONE 3 s; DONE then switches off and asks for the jetways unless they must not connect. */
  lemma Timeouts(o: Obs, c: Ctx)
    ensures Decide(Chocks, o, c).next == Done <==> c.now > c.timestamp + 5.0
    ensures Decide(Done, o, c).exit == (if c.now > c.timestamp + 3.0 then SwitchOff(!c.dontConnectJetway) else Stay)
  {
  }

  // ---------------------------------------------------------------------
  // Output encodings
  // ---------------------------------------------------------------------

  /** The distance and azimuth as the displays show them, with the digits of a distance below 10 m. */
  datatype Shown = Shown(distance: real, d0: real, d01: real, azimuth: real)

  /** The metre digit and the decimal digit of a distance in [0, 10). */
  function Digits(c: real): (d: (int, int))
    requires 0.0 <= c < 10.0
    ensures 0 <= d.0 <= 9 && 0 <= d.1 <= 9
    ensures d.0 as real + d.1 as real / 10.0 <= c < d.0 as real + (d.1 + 1) as real / 10.0
  {
    var d0 := Trunc(c);
    var f := (c - d0 as real) * 10.0;
    var d01 := Trunc(f);
    assert d01 as real <= f < d01 as real + 1.0;
    (d0, d01)
  }

  /** The distance on a grid of 0.5 m, truncated toward zero. */
  function HalfMetres(c: real): (r: real)
    ensures (r * 2.0).Floor as real == r * 2.0
    ensures c >= 0.0 ==> 0.0 <= r <= c < r + 0.5
    ensures c < 0.0 ==> r - 0.5 < c <= r <= 0.0
  {
    Trunc(c * 2.0) as real / 2.0
  }

  /**
   * The encoding before the drefs are written: without guidance (track 0
   * or 1) distance and azimuth are 0; the distance is clamped to [-0.5, 12],
   * its digits are shown below 10 m, and it is shown in steps of 0.5 m.
   */
  function Encode(track: int, distance: real, azimuth: real): (s: Shown)
    ensures track == 0 || track == 1 ==> s == Shown(0.0, 0.0, 0.0, 0.0)
    ensures track != 0 && track != 1 ==> s.azimuth == azimuth
    ensures -GoodZ <= s.distance <= RemZ
    ensures var c := Clamp(if track == 0 || track == 1 then 0.0 else distance, -GoodZ, RemZ);
      s.distance == HalfMetres(c) &&
      (0.0 <= c < 10.0 ==> s.d0 == Digits(c).0 as real && s.d01 == Digits(c).1 as real) &&
      (!(0.0 <= c < 10.0) ==> s.d0 == 0.0 && s.d01 == 0.0)
  {
    var off := track == 0 || track == 1;
    var c := Clamp(if off then 0.0 else distance, -GoodZ, RemZ);
    var dg := if 0.0 <= c < 10.0 then Digits(c) else (0, 0);
    Shown(HalfMetres(c), dg.0 as real, dg.1 as real, if off then 0.0 else azimuth)
  }

  /** The "opensam/dgs/..." array of a cycle: ident 0, the encoded values, and the type characters only in TRACK. */
  function DrefsOf(state: int, o: Out, s: Shown, icao: string): (d: seq<real>)
    requires |icao| == 4
    ensures |d| == DgsDrNum && d[DrIdent] == 0.0
    ensures d[DrStatus] == o.status as real && d[DrLr] == o.lr as real && d[DrTrack] == o.track as real
    ensures d[DrAzimuth] == s.azimuth && d[DrDistance] == s.distance
    ensures d[DrDistance0] == s.d0 && d[DrDistance01] == s.d01
    ensures forall i :: 0 <= i < 4 ==> d[DrIcao0 + i] == if state == Track then icao[i] as int as real else 0.0
  {
    var ic := if state == Track then seq(4, i requires 0 <= i < 4 => icao[i] as int as real) else [0.0, 0.0, 0.0, 0.0];
    [0.0, o.status as real, o.lr as real, o.track as real, s.azimuth, s.distance, s.d0, s.d01] + ic
  }

  /** The values of the SAM1 datarefs. */
  datatype Sam1 = Sam1(status: real, lateral: real, longitudinal: real)

  /** The SAM1 longitudinal value never exceeds 30 m. */
  predicate Sam1Ok(s: Sam1)
  {
    s.longitudinal <= 30.0
  }

  /** `read_sam1_acc` for a DGS that is not associated: idle, switched off. */
  const Sam1Off := Sam1(Sam1Idle, Sam1LateralOff, 0.0)

  /** The SAM1 values of a state: tracking while guided, stop zone in the window at rest, idle at the end, off otherwise. */
  function Sam1Of(state: int, o: Obs): (s: Sam1)
    ensures Sam1Ok(s)
    ensures state in {Engaged, Track, Bad} ==> s == Sam1(Sam1Track, -o.xDr, Min(o.zDr, 30.0))
    ensures state in {Good, Parked} ==>
      (Min(o.zDr, 30.0) < 0.1 ==> s == Sam1(Sam1StopZone, 0.0, Min(o.zDr, 30.0))) &&
      (Min(o.zDr, 30.0) >= 0.1 ==> s == Sam1(Sam1Track, -o.xDr, Min(o.zDr, 30.0)))
    ensures state in {Chocks, Done} ==> s == Sam1(Sam1Idle, -o.xDr, 0.0)
    ensures state !in {Engaged, Track, Bad, Good, Parked, Chocks, Done} ==> s == Sam1Off
  {
    var lat := -o.xDr;
    var lon := Min(o.zDr, 30.0);
    if state == Engaged || state == Track || state == Bad then Sam1(Sam1Track, lat, lon)
    else if state == Good || state == Parked then
      if lon < 0.1 then Sam1(Sam1StopZone, 0.0, lon) else Sam1(Sam1Track, lat, lon)
    else if state == Chocks || state == Done then Sam1(Sam1Idle, lat, 0.0)
    else Sam1Off
  }

  // ---------------------------------------------------------------------
  // One call of `dgs_state_machine` on the module's registers
  // ---------------------------------------------------------------------

  /** What the simulator supplies to one cycle. */
  datatype Env = Env(now: real, pow15: real, zm: int, zh: int, sinWave: real, plane: Plane,
                     tlsChocks: bool, trig: Trig, cands: seq<Cand>)

  /** The module's state between two calls. */
  datatype Regs = Regs(state: int, timestamp: real, status: int, track: int, lr: int,
                       azimuth: real, distance: real, nearest: Option<StandGeo>, nearestTs: real,
                       assoc: Assoc, isMarshaller: bool, sinWavePrev: real, sam1: Sam1,
                       dockRequested: bool, chocksSet: bool)

  /** The invariant of the registers: a known state, an engaged stand only in a guidance state with a consistent association, SAM1 within range. */
  predicate RegsOk(r: Regs)
  {
    Disabled <= r.state <= Done &&
    (r.nearest.Some? ==> r.state >= Engaged && AssocOk(r.assoc)) &&
    Sam1Ok(r.sam1)
  }

  /** The throttled stand search: a different stand is engaged afresh; a stale frame drops the association. */
  function Search(r: Regs, now: real, cs: seq<Cand>): (s: Regs)
    ensures !(now > r.nearestTs + 2.0) ==> s == r
    ensures now > r.nearestTs + 2.0 ==> s.nearestTs == now
    ensures s.state != r.state ==> s.state == Engaged && s.nearest.Some? && s.nearest != r.nearest
  {
    if !(now > r.nearestTs + 2.0) then r
    else
      var b := BestUpTo(cs, |cs|);
      var r1 := r.(nearestTs := now, assoc := if AnyStale(cs) then Unassociated else r.assoc);
      if b.Some? && (r.nearest.None? || cs[b.value].geo.id != r.nearest.value.id) then
        r1.(nearest := Some(cs[b.value].geo), isMarshaller := false, assoc := Unassociated, state := Engaged)
      else if b.Some? then r1.(nearest := Some(cs[b.value].geo))
      else r1
  }

  /** The result of one call: new registers, the delay returned, and the dref array if it was rewritten. */
  datatype Turn = Turn(regs: Regs, delay: real, drefs: Option<seq<real>>)

  /** The context of the decision, from the registers after the search. */
  function CtxOf(s: Regs, e: Env): Ctx
  {
    Ctx(e.now, s.timestamp, e.plane.beaconOn, e.plane.parkbrakeSet, s.sinWavePrev > 0.0 && e.sinWave <= 0.0,
        s.isMarshaller, e.plane.dontConnectJetway, e.tlsChocks, s.lr, s.track, s.distance)
  }

  /** The registers as the decision leaves them, before the state changes. */
  function Decided(s: Regs, st: Step, sinWave: real): Regs
  {
    s.(status := st.out.status, track := st.out.track, lr := st.out.lr,
       azimuth := st.out.azimuth, distance := st.out.distance, sinWavePrev := sinWave,
       chocksSet := s.chocksSet || st.setChocks)
  }

  /** What follows the decision: switch off, take the transition, or publish the encoded values. */
  function Finish(s2: Regs, st: Step, o: Obs, e: Env): (t: Turn)
    requires |e.plane.icao| == 4
    ensures t.drefs.Some? ==> |t.drefs.value| == DgsDrNum
  {
    if st.exit.SwitchOff? then
      Turn(s2.(state := Inactive, nearest := None, dockRequested := s2.dockRequested || st.exit.dock), st.out.delay, None)
    else if st.next != s2.state then Turn(s2.(state := st.next, timestamp := e.now), -1.0, None)
    else if s2.state > Active then
      var sh := Encode(st.out.track, st.out.distance, st.out.azimuth);
      Turn(s2.(distance := sh.distance, azimuth := sh.azimuth, sam1 := Sam1Of(s2.state, o)), st.out.delay,
           Some(DrefsOf(s2.state, st.out, sh, e.plane.icao)))
    else Turn(s2, st.out.delay, None)
  }

  /** The end of a cycle with an engaged stand: observe, decide, then `Finish`. */
  function Conclude(s: Regs, e: Env): (t: Turn)
    requires s.nearest.Some? && |e.plane.icao| == 4
    ensures t.drefs.Some? ==> |t.drefs.value| == DgsDrNum
  {
    var o := Observe(s.nearest.value, e.plane, e.trig);
    var st := Decide(s.state, o, CtxOf(s, e));
    Finish(Decided(s, st, e.sinWave), st, o, e)
  }

  /** `dgs_state_machine` after the global values: nothing while inactive, else search, then without a stand ACTIVE, with one `Conclude`. */
  function Cycle(r: Regs, e: Env): (t: Turn)
    requires |e.plane.icao| == 4
    ensures t.drefs.Some? ==> |t.drefs.value| == DgsDrNum
  {
    if r.state <= Inactive then Turn(r, 1.0, None)
    else
      var s := Search(r, e.now, e.cands);
      if s.nearest.None? then Turn(s.(state := Active), 1.0, None)
      else Conclude(s, e)
  }

  /** The search keeps the invariant, once a search without a stand has made the DGS ACTIVE. */
  lemma SearchPreserves(r: Regs, now: real, cs: seq<Cand>)
    requires RegsOk(r) && r.state > Inactive
    ensures var s := Search(r, now, cs); RegsOk(s.(state := if s.nearest.None? then Active else s.state))
  {
  }

  /** A cycle with an engaged stand keeps the invariant. */
  lemma ConcludePreserves(s: Regs, e: Env)
    requires RegsOk(s) && s.nearest.Some? && |e.plane.icao| == 4
    ensures RegsOk(Conclude(s, e).regs)
  {
    var o := Observe(s.nearest.value, e.plane, e.trig);
    var st := Decide(s.state, o, CtxOf(s, e));
    DecideFollowsEdges(s.state, o, CtxOf(s, e));
    var s2 := Decided(s, st, e.sinWave);
    assert RegsOk(s2);
  }

  /** A cycle keeps the invariant of the registers. */
  lemma CyclePreserves(r: Regs, e: Env)
    requires RegsOk(r) && |e.plane.icao| == 4
    ensures RegsOk(Cycle(r, e).regs)
  {
    if r.state > Inactive {
      var s := Search(r, e.now, e.cands);
      SearchPreserves(r, e.now, e.cands);
      if s.nearest.Some? {
        ConcludePreserves(s, e);
      }
    }
  }

  /** An inactive or disabled DGS does nothing and comes back after 1 s. */
  lemma CycleIdle(r: Regs, e: Env)
    requires r.state <= Inactive && |e.plane.icao| == 4
    ensures Cycle(r, e) == Turn(r, 1.0, None)
  {
  }

  /**
   * A transition decided by a cycle takes effect at once with a fresh
   * timestamp and -1 (the next frame); the displays are rewritten only by a
   * cycle that keeps the state it decided in.
   */
  lemma CycleTransitionDefersPublish(r: Regs, e: Env)
    requires |e.plane.icao| == 4 && r.state > Inactive
    ensures var s := Search(r, e.now, e.cands); var t := Cycle(r, e);
      (t.drefs.Some? ==> s.nearest.Some? && t.regs.state == s.state) &&
      (s.nearest.Some? && t.regs.state != s.state && t.regs.state != Inactive ==>
        t.delay == -1.0 && t.drefs.None? && t.regs.timestamp == e.now)
  {
  }

  /** Without an engaged stand the DGS is ACTIVE: it waits for one, polling every second. */
  lemma CycleWithoutStand(r: Regs, e: Env)
    requires |e.plane.icao| == 4 && r.state > Inactive && Search(r, e.now, e.cands).nearest.None?
    ensures Cycle(r, e).regs.state == Active && Cycle(r, e).delay == 1.0 && Cycle(r, e).drefs.None?
  {
  }

  // ---------------------------------------------------------------------
  // The module state
  // ---------------------------------------------------------------------

  class Dgs {
    var state: int
    var timestamp: real
    var status: int
    var track: int
    var lr: int
    var azimuth: real
    var distance: real
    var nearest: Option<StandGeo>
    var nearestTs: real
    var assoc: Assoc
    var isMarshaller: bool
    var marshaller: (real, real, real, real)
    var sinWavePrev: real
    var sam1: Sam1
    var dockRequested: bool
    var chocksSet: bool
    var utc: Utc
    var brightness: real
    /** The "opensam/dgs/..." values. */
    const drefs: array<real>

    function Registers(): Regs
      reads this
    {
      Regs(state, timestamp, status, track, lr, azimuth, distance, nearest, nearestTs,
           assoc, isMarshaller, sinWavePrev, sam1, dockRequested, chocksSet)
    }

    predicate Valid()
      reads this
    {
      drefs.Length == DgsDrNum && RegsOk(Registers())
    }

    /** The module's initial values: DISABLED, all zero, then `dgs_init` switches it to INACTIVE. */
    constructor ()
      ensures Valid() && state == Inactive && nearest.None? && drefs[..] == seq(DgsDrNum, _ => 0.0)
      ensures sam1 == Sam1(0.0, 0.0, 0.0) && !dockRequested
    {
      state := Inactive;
      timestamp, status, track, lr, azimuth, distance := 0.0, 0, 0, 0, 0.0, 0.0;
      nearest, nearestTs := None, 0.0;
      assoc := Assoc(false, 0.0, 0.0, 0.0);
      isMarshaller, marshaller := false, (0.0, 0.0, 0.0, 0.0);
      sinWavePrev, sam1 := 0.0, Sam1(0.0, 0.0, 0.0);
      dockRequested, chocksSet := false, false;
      utc, brightness := Utc(0, 0, 0, 0), 0.0;
      drefs := new real[DgsDrNum](_ => 0.0);
    }

    /** `dgs_set_inactive`: no stand, INACTIVE. */
    method SetInactive()
      requires Valid()
      modifies this`nearest, this`state
      ensures Valid() && nearest.None? && state == Inactive
    {
      nearest := None;
      state := Inactive;
    }

    /** `dgs_set_active`: only on the ground; drops the stand and starts looking for one. */
    method SetActive(onGround: bool)
      requires Valid()
      modifies this`nearest, this`state
      ensures Valid()
      ensures onGround ==> nearest.None? && state == Active
      ensures !onGround ==> nearest == old(nearest) && state == old(state)
    {
      if !onGround {
        return;
      }
      SetInactive();
      state := Active;
    }

    /** `is_dgs_active` for a DGS object at (objX, objZ) with heading objPsi. */
    method IsDgsActive(objX: real, objZ: real, objPsi: real, now: real) returns (active: bool)
      requires Valid()
      modifies this`assoc, this`isMarshaller
      ensures Valid()
      ensures old(nearest).None? ==> !active && assoc == old(assoc) && isMarshaller == old(isMarshaller)
      ensures old(nearest).Some? ==>
        var g := old(nearest).value;
        var (xl, zl) := Global2Stand(g, objX, objZ);
        var v := Associate(old(assoc), xl, zl, RA(g.hdgt - objPsi), now);
        active == v.accepted && assoc == v.assoc && isMarshaller == (old(isMarshaller) && !v.isNew)
    {
      if nearest.None? {
        return false;
      }
      var g := nearest.value;
      var (xl, zl) := Global2Stand(g, objX, objZ);
      var v := Associate(assoc, xl, zl, RA(g.hdgt - objPsi), now);
      AssociateKeepsOk(assoc, xl, zl, RA(g.hdgt - objPsi), now);
      if v.isNew {
        isMarshaller := false;
      }
      assoc := v.assoc;
      active := v.accepted;
    }

    /**
     * `DgsActiveAcc`: an associated DGS reads the published value; the ident
     * is asked for only by a marshaller, so an aligned object asking for it
     * more than 2 s after the last association is taken to be the marshaller.
     */
    method DgsActiveAcc(idx: nat, objX: real, objY: real, objZ: real, objPsi: real, now: real) returns (r: real)
      requires Valid() && idx < DgsDrNum
      modifies this`assoc, this`isMarshaller, this`marshaller
      ensures Valid()
      ensures old(nearest).None? ==> r == 0.0 && marshaller == old(marshaller)
      ensures old(nearest).Some? ==> var g := old(nearest).value;
        var v := Associate(old(assoc), Global2Stand(g, objX, objZ).0, Global2Stand(g, objX, objZ).1, RA(g.hdgt - objPsi), now);
        var active := v.accepted;
        var marks := active && idx == DrIdent && Abs(RA(g.hdgt - objPsi)) <= 10.0 && now > assoc.ts + 2.0;
        r == (if !active || (idx == DrIdent && Abs(RA(g.hdgt - objPsi)) > 10.0) || marks then 0.0 else drefs[idx]) &&
        (marks ==> isMarshaller && marshaller == (objX, objY, objZ, objPsi)) &&
        (!marks ==> marshaller == old(marshaller))
    {
      var active := IsDgsActive(objX, objZ, objPsi, now);
      if !active {
        return 0.0;
      }
      if idx == DrIdent {
        if Abs(RA(nearest.value.hdgt - objPsi)) > 10.0 {
          return 0.0;
        }
        if now > assoc.ts + 2.0 {
          isMarshaller := true;
          marshaller := (objX, objY, objZ, objPsi);
          return 0.0;
        }
      }
      r := drefs[idx];
    }

    /** `read_sam1_acc`: the SAM1 values to an associated DGS, "idle, off" to any other. */
    method ReadSam1Acc(idx: int, objX: real, objZ: real, objPsi: real, now: real) returns (r: real)
      requires Valid()
      modifies this`assoc, this`isMarshaller
      ensures Valid()
      ensures old(nearest).None? ==> r == (if idx == Sam1DrStatus then Sam1Idle else if idx == Sam1DrLateral then Sam1LateralOff else 0.0)
      ensures old(nearest).Some? ==> var g := old(nearest).value;
        var active :=
          Associate(old(assoc), Global2Stand(g, objX, objZ).0, Global2Stand(g, objX, objZ).1, RA(g.hdgt - objPsi), now).accepted;
        var s := if active then sam1 else Sam1Off;
        r == (if idx == Sam1DrStatus then s.status else if idx == Sam1DrLateral then s.lateral
              else if idx == Sam1DrLongitudinal then s.longitudinal else 0.0)
    {
      var active := IsDgsActive(objX, objZ, objPsi, now);
      var s := if active then sam1 else Sam1Off;
      r := if idx == Sam1DrStatus then s.status else if idx == Sam1DrLateral then s.lateral
           else if idx == Sam1DrLongitudinal then s.longitudinal else 0.0;
    }

    /** The search step of a cycle: `find_nearest_stand` when the last search is more than 2 s old. */
    method SearchStand(now: real, cs: seq<Cand>)
      requires Valid() && state > Inactive
      modifies this`nearest, this`nearestTs, this`assoc, this`isMarshaller, this`state
      ensures Registers() == Search(old(Registers()), now, cs)
    {
      if now > nearestTs + 2.0 {
        var best, refreshed := FindNearest(cs);
        if refreshed {
          assoc := Unassociated;
        }
        if best.Some? && (nearest.None? || cs[best.value].geo.id != nearest.value.id) {
          isMarshaller := false;
          nearest := Some(cs[best.value].geo);
          assoc := Unassociated;
          state := Engaged;
        } else if best.Some? {
          nearest := Some(cs[best.value].geo);
        }
        nearestTs := now;
      }
    }

    /** Writes the dref array of a cycle: cleared, then filled. */
    method Publish(d: seq<real>)
      requires |d| == drefs.Length
      modifies drefs
      ensures drefs[..] == d
    {
      forall i | 0 <= i < drefs.Length {
        drefs[i] := 0.0;
      }
      var i := 0;
      while i < drefs.Length
        invariant 0 <= i <= drefs.Length
        invariant drefs[..i] == d[..i]
      {
        drefs[i] := d[i];
        i := i + 1;
      }
    }

    /** `dgs_state_machine`: the global values, then one cycle of the guidance. */
    method StateMachine(e: Env) returns (delay: real)
      requires Valid() && |e.plane.icao| == 4
      modifies this`state, this`timestamp, this`status, this`track, this`lr, this`azimuth, this`distance,
        this`nearest, this`nearestTs, this`assoc, this`isMarshaller, this`sinWavePrev, this`sam1,
        this`dockRequested, this`chocksSet, this`utc, this`brightness, drefs
      ensures Valid()
      ensures utc == UtcDigits(e.zm, e.zh) && brightness == Brightness(e.pow15)
      ensures var t := Cycle(old(Registers()), e);
        Registers() == t.regs && delay == t.delay &&
        drefs[..] == (if t.drefs.Some? then t.drefs.value else old(drefs[..]))
    {
      brightness := Brightness(e.pow15);
      utc := UtcDigits(e.zm, e.zh);
      ghost var r0 := Registers();
      CyclePreserves(r0, e);
      if state <= Inactive {
        return 1.0;
      }
      SearchStand(e.now, e.cands);
      SearchPreserves(r0, e.now, e.cands);
      if nearest.None? {
        state := Active;
        return 1.0;
      }
      delay := ConcludeCycle(e);
    }

    /** The part of a cycle with an engaged stand. */
    method ConcludeCycle(e: Env) returns (delay: real)
      requires drefs.Length == DgsDrNum && RegsOk(Registers()) && nearest.Some? && |e.plane.icao| == 4
      modifies this`status, this`track, this`lr, this`azimuth, this`distance, this`sinWavePrev,
        this`chocksSet, this`dockRequested, this`nearest, this`state, this`timestamp, this`sam1, drefs
      ensures var t := Conclude(old(Registers()), e);
        Registers() == t.regs && delay == t.delay &&
        drefs[..] == (if t.drefs.Some? then t.drefs.value else old(drefs[..]))
    {
      var o := Observe(nearest.value, e.plane, e.trig);
      var st := Decide(state, o, CtxOf(Registers(), e));
      Record(st, e.sinWave);
      delay := Commit(st, o, e);
    }

    /** Keeps the outputs of the decision `st` in the registers. */
    method Record(st: Step, sinWave: real)
      modifies this`status, this`track, this`lr, this`azimuth, this`distance, this`sinWavePrev, this`chocksSet
      ensures Registers() == Decided(old(Registers()), st, sinWave)
    {
      status, track, lr, azimuth, distance := st.out.status, st.out.track, st.out.lr, st.out.azimuth, st.out.distance;
      sinWavePrev := sinWave;
      chocksSet := chocksSet || st.setChocks;
    }

    /** The end of a cycle after the decision `st` on the observation `o`. */
    method Commit(st: Step, o: Obs, e: Env) returns (delay: real)
      requires drefs.Length == DgsDrNum && |e.plane.icao| == 4
      modifies this`dockRequested, this`nearest, this`state, this`timestamp, this`distance, this`azimuth, this`sam1, drefs
      ensures var t := Finish(old(Registers()), st, o, e);
        Registers() == t.regs && delay == t.delay &&
        drefs[..] == (if t.drefs.Some? then t.drefs.value else old(drefs[..]))
    {
      delay := st.out.delay;
      if st.exit.SwitchOff? {
        dockRequested := dockRequested || st.exit.dock;
        nearest := None;
        state := Inactive;
        return;
      }
      if st.next != state {
        state := st.next;
        timestamp := e.now;
        return -1.0;
      }
      if state > Active {
        var sh := Encode(st.out.track, st.out.distance, st.out.azimuth);
        distance, azimuth := sh.distance, sh.azimuth;
        sam1 := Sam1Of(state, o);
        Publish(DrefsOf(state, st.out, sh, e.plane.icao));
      }
    }
  }
}
