/**
 * os_dgs.c: the older C version of the docking guidance system.  It shares
 * the stand search, the observation of the plane, the TRACK guidance and
 * the ICAO reader with os_dgs.cpp (module OsDgs) and differs in:
 *
 * - the association of DGS objects: a smaller box (3 m across, 70 m along),
 *   only the largest z counts, and the object accepted last is remembered
 *   and accepted again without any check;
 * - the states: there is no CHOCKS (DONE has code 8), TRACK does not leave
 *   for DONE on beacon off, PARKED goes to DONE on beacon off, and DONE
 *   waits 5 s and then issues the dock command;
 * - the parking brake is set when its ratio exceeds 0.5;
 * - the encoding: the distance is clamped but not put on the 0.5 m grid and
 *   has no digits, the last ICAO character gets 0.98 added when it is a
 *   letter, and the brightness is the last of 11 datarefs;
 * - an idle machine is polled every 2 s.
 */
module OsDgsLegacy {
  import opened Wrappers
  import opened Strings
  import opened OpenSamH
  import D = OsDgs

  /** The box around the stand a DGS object must lie in. */
  const MaxDgsToStandX: real := 3.0
  const MaxDgsToStandZ: real := 70.0

  /** The codes of `state_t`: those of OsDgs up to PARKED, then DONE. */
  const Done := 8

  /** The indices of the "opensam/dgs/..." datarefs, and their number. */
  const DrIcao0 := 6
  const DrBrightness := 10
  const DgsDrNum := 11

  /** The ICAO_3 correction for letters, for a VDGS that reads letters one too low. */
  const IcaoLetterFix: real := 0.98

  // ---------------------------------------------------------------------
  // `is_dgs_active`
  // ---------------------------------------------------------------------

  /**
   * The association state: whether the stand has a DGS, the largest local z
   * of an associated DGS and the time it was associated, and the global x/z
   * of the object accepted last.
   */
  datatype Assoc = Assoc(on: bool, maxZ: real, ts: real, lastX: real, lastZ: real)

  /** The reset of `xform_to_ref_frame` and `find_nearest_stand`; the last z is left as it was. */
  function Reset(a: Assoc): (r: Assoc)
    ensures !r.on && r.lastZ == a.lastZ
  {
    Assoc(false, -D.Far, D.Far, -D.Far, a.lastZ)
  }

  /** Without a DGS the association holds its reset values. */
  predicate AssocOk(a: Assoc)
  {
    !a.on ==> a == Reset(a)
  }

  /** The box around the stand in which a DGS must stand, aligned with the stand or facing it. */
  predicate InDgsBox(xl: real, zl: real, hdgDiff: real)
  {
    Abs(xl) <= MaxDgsToStandX && -MaxDgsToStandZ <= zl <= -5.0 && !Between(Abs(hdgDiff), 10.0, 170.0)
  }

  /** The outcome of `is_dgs_active` for one object. */
  datatype Verdict = Verdict(accepted: bool, assoc: Assoc, isNew: bool)

  /** The object at global (x, z) is the one accepted last. */
  predicate Cached(a: Assoc, x: real, z: real)
  {
    x == a.lastX && z == a.lastZ
  }

  /**
   * `is_dgs_active` on an object at global (x, z), at (xl, zl) in the stand
   * frame, whose heading differs by hdgDiff from the stand's.
   */
  function Associate(a: Assoc, x: real, z: real, xl: real, zl: real, hdgDiff: real, now: real): (v: Verdict)
    ensures Cached(a, x, z) ==> v == Verdict(true, a, false)
    ensures !Cached(a, x, z) && v.accepted ==> InDgsBox(xl, zl, hdgDiff) && v.assoc.on && Cached(v.assoc, x, z)
    ensures !v.accepted ==> v.assoc == a && !v.isNew
    ensures v.isNew <==> !Cached(a, x, z) && v.accepted && zl > a.maxZ
    ensures v.isNew ==> v.assoc.maxZ == zl && v.assoc.ts == now
    ensures v.accepted && !v.isNew ==> v.assoc.maxZ == a.maxZ && v.assoc.ts == a.ts
  {
    if Cached(a, x, z) then Verdict(true, a, false)
    else if a.on && zl < a.maxZ then Verdict(false, a, false)
    else if !InDgsBox(xl, zl, hdgDiff) then Verdict(false, a, false)
    else if zl > a.maxZ then Verdict(true, Assoc(true, zl, now, x, z), true)
    else Verdict(true, a.(on := true, lastX := x, lastZ := z), false)
  }

  /** An object behind the associated DGS is refused unless it is the one accepted last. */
  lemma AssociateRefusesBehind(a: Assoc, x: real, z: real, xl: real, zl: real, hdgDiff: real, now: real)
    requires a.on && zl < a.maxZ && !Cached(a, x, z)
    ensures !Associate(a, x, z, xl, zl, hdgDiff, now).accepted
  {
  }

  /** After a reset the first object in the box is accepted and associated (unless it sits on the reset x). */
  lemma AssociateFirst(a: Assoc, x: real, z: real, xl: real, zl: real, hdgDiff: real, now: real)
    requires InDgsBox(xl, zl, hdgDiff) && x != -D.Far
    ensures Associate(Reset(a), x, z, xl, zl, hdgDiff, now) == Verdict(true, Assoc(true, zl, now, x, z), true)
  {
  }

  /** The largest z of the association never decreases. */
  lemma AssociateKeepsMax(a: Assoc, x: real, z: real, xl: real, zl: real, hdgDiff: real, now: real)
    ensures Associate(a, x, z, xl, zl, hdgDiff, now).assoc.maxZ >= a.maxZ
  {
  }

  /** Associating keeps the reset values of an unassociated stand. */
  lemma AssociateKeepsOk(a: Assoc, x: real, z: real, xl: real, zl: real, hdgDiff: real, now: real)
    requires AssocOk(a)
    ensures AssocOk(Associate(a, x, z, xl, zl, hdgDiff, now).assoc)
  {
  }

  // ---------------------------------------------------------------------
  // The transition table
  // ---------------------------------------------------------------------

  /** The switch of the C `dgs_state_machine`; TRACK and GOOD guide as in OsDgs. */
  function Decide(st: int, o: D.Obs, c: D.Ctx): (r: D.Step)
    ensures r.exit.SwitchOff? ==> r.next == D.Inactive && (st == D.Bad || st == Done)
    ensures !r.setChocks
  {
    var base := D.Out(0, 0, 0, o.azimuth, o.nwZ - D.GoodZ, 0.2);
    if st == D.Engaged then
      D.Step(if !c.beaconOn then Done else if D.Captured(o) then D.Track else D.Engaged, base, D.Stay, false)
    else if st == D.Track then
      if D.LocGood(o) then D.Step(D.Good, base, D.Stay, false)
      else if o.nwZ < -D.GoodZ then D.Step(D.Bad, base, D.Stay, false)
      else if !D.Captured(o) then D.Step(D.Engaged, base, D.Stay, false)
      else D.Step(D.Track, D.Guide(o, c), D.Stay, false)
    else if st == D.Good then
      D.Step(if !D.LocGood(o) then D.Track else if c.parkbrakeSet || !c.beaconOn then D.Parked else D.Good,
             base.(status := 2, lr := 3), D.Stay, false)
    else if st == D.Bad then
      if !c.beaconOn && c.now > c.timestamp + 5.0 then D.Step(D.Inactive, base, D.SwitchOff(false), false)
      else if o.nwZ >= -D.GoodZ then D.Step(D.Track, base, D.Stay, false)
      else D.Step(D.Bad, base.(status := 4, lr := 3), D.Stay, false)
    else if st == D.Parked then
      D.Step(if c.beaconOn then D.Parked else Done, base.(status := 3, lr := 0), D.Stay, false)
    else if st == Done then
      if c.now > c.timestamp + 5.0 then D.Step(D.Inactive, base, D.SwitchOff(!c.dontConnectJetway), false)
      else D.Step(Done, base, D.Stay, false)
    else D.Step(st, base, D.Stay, false)
  }

  /** The documented transitions of the C machine. */
  predicate Edge(a: int, b: int)
  {
    (a == D.Engaged && b in {D.Track, Done}) ||
    (a == D.Track && b in {D.Good, D.Bad, D.Engaged}) ||
    (a == D.Good && b in {D.Track, D.Parked}) ||
    (a == D.Bad && b in {D.Inactive, D.Track}) ||
    (a == D.Parked && b == Done) ||
    (a == Done && b == D.Inactive)
  }

  /** A cycle either stays or follows one documented transition. */
  lemma DecideFollowsEdges(st: int, o: D.Obs, c: D.Ctx)
    ensures var r := Decide(st, o, c); r.next == st || Edge(st, r.next)
  {
  }

  /** TRACK ignores the beacon: its tests are the stop window, past the stop, out of capture. */
  lemma TrackIgnoresBeacon(o: D.Obs, c: D.Ctx)
    ensures Decide(D.Track, o, c) == Decide(D.Track, o, c.(beaconOn := !c.beaconOn))
    ensures Decide(D.Track, o, c).next == D.Good <==> D.LocGood(o)
  {
  }

  /** PARKED goes to DONE exactly on beacon off; DONE switches off after 5 s, issuing the dock command unless jetways must not connect. */
  lemma ParkedAndDone(o: D.Obs, c: D.Ctx)
    ensures Decide(D.Parked, o, c).next == Done <==> !c.beaconOn
    ensures Decide(Done, o, c).exit == (if c.now > c.timestamp + 5.0 then D.SwitchOff(!c.dontConnectJetway) else D.Stay)
  {
  }

  /** The two versions decide alike in ENGAGED, GOOD and BAD, up to the code of DONE. */
  lemma AgreesWithOsDgs(st: int, o: D.Obs, c: D.Ctx)
    requires st in {D.Engaged, D.Good, D.Bad}
    ensures var a := Decide(st, o, c); var b := D.Decide(st, o, c);
      a.out == b.out && a.exit == b.exit && (if b.next == D.Done then a.next == Done else a.next == b.next)
  {
  }

  // ---------------------------------------------------------------------
  // Output encodings
  // ---------------------------------------------------------------------

  /** The distance as published: 0 without guidance (track 0 or 1), clamped to [-0.5, 12], not rounded. */
  function ShownDistance(track: int, distance: real): (r: real)
    ensures -D.GoodZ <= r <= D.RemZ
    ensures track == 0 || track == 1 ==> r == 0.0
    ensures track != 0 && track != 1 && -D.GoodZ <= distance <= D.RemZ ==> r == distance
  {
    Clamp(if track == 0 || track == 1 then 0.0 else distance, -D.GoodZ, D.RemZ)
  }

  /** One ICAO character as published in TRACK: its code, plus 0.98 for the last character when it is a letter. */
  function IcaoValue(icao: string, i: nat): (v: real)
    requires |icao| == 4 && i < 4
    ensures i < 3 || !IsAlpha(icao[3]) ==> v == icao[i] as int as real
    ensures i == 3 && IsAlpha(icao[3]) ==> v == icao[3] as int as real + IcaoLetterFix
  {
    icao[i] as int as real + (if i == 3 && IsAlpha(icao[3]) then IcaoLetterFix else 0.0)
  }

  /** The 11 "opensam/dgs/..." values of a cycle. */
  function DrefsOf(state: int, o: D.Out, distance: real, azimuth: real, icao: string, brightness: real): (d: seq<real>)
    requires |icao| == 4
    ensures |d| == DgsDrNum && d[D.DrIdent] == 0.0
    ensures d[D.DrStatus] == o.status as real && d[D.DrLr] == o.lr as real && d[D.DrTrack] == o.track as real
    ensures d[D.DrAzimuth] == azimuth && d[D.DrDistance] == distance && d[DrBrightness] == brightness
    ensures forall i :: 0 <= i < 4 ==> d[DrIcao0 + i] == if state == D.Track then IcaoValue(icao, i) else 0.0
  {
    var ic := if state == D.Track then seq(4, i requires 0 <= i < 4 => IcaoValue(icao, i)) else [0.0, 0.0, 0.0, 0.0];
    [0.0, o.status as real, o.lr as real, o.track as real, azimuth, distance] + ic + [brightness]
  }

  /** The SAM1 values of a state: as in OsDgs, except that the stop zone keeps the lateral offset; DONE is idle. */
  function Sam1Of(state: int, o: D.Obs): (s: D.Sam1)
    ensures D.Sam1Ok(s)
    ensures state in {D.Engaged, D.Track, D.Bad} ==> s == D.Sam1Of(state, o)
    ensures state in {D.Good, D.Parked} ==>
      s == D.Sam1(if Min(o.zDr, 30.0) < 0.1 then D.Sam1StopZone else D.Sam1Track, -o.xDr, Min(o.zDr, 30.0))
    ensures state == Done ==> s == D.Sam1(D.Sam1Idle, -o.xDr, 0.0)
    ensures state !in {D.Engaged, D.Track, D.Bad, D.Good, D.Parked, Done} ==> s == D.Sam1Off
  {
    var lat := -o.xDr;
    var lon := Min(o.zDr, 30.0);
    if state == D.Engaged || state == D.Track || state == D.Bad then D.Sam1(D.Sam1Track, lat, lon)
    else if state == D.Good || state == D.Parked then
      if lon < 0.1 then D.Sam1(D.Sam1StopZone, lat, lon) else D.Sam1(D.Sam1Track, lat, lon)
    else if state == Done then D.Sam1(D.Sam1Idle, lat, 0.0)
    else D.Sam1Off
  }

  // ---------------------------------------------------------------------
  // One call of `dgs_state_machine`
  // ---------------------------------------------------------------------

  /** What the simulator supplies to one cycle. */
  datatype Env = Env(now: real, pow15: real, sinWave: real, plane: D.Plane, parkbrakeRatio: real,
                     trig: D.Trig, cands: seq<D.Cand>)

  /** The module's state between two calls. */
  datatype Regs = Regs(state: int, timestamp: real, status: int, track: int, lr: int,
                       azimuth: real, distance: real, nearest: Option<D.StandGeo>, nearestTs: real,
                       assoc: Assoc, isMarshaller: bool, sinWavePrev: real, sam1: D.Sam1, dockCommands: nat)

  predicate RegsOk(r: Regs)
  {
    D.Disabled <= r.state <= Done &&
    (r.nearest.Some? ==> r.state >= D.Engaged && AssocOk(r.assoc)) &&
    D.Sam1Ok(r.sam1)
  }

  /** The throttled stand search, with the reset of the C version. */
  function Search(r: Regs, now: real, cs: seq<D.Cand>): (s: Regs)
    ensures !(now > r.nearestTs + 2.0) ==> s == r
    ensures now > r.nearestTs + 2.0 ==> s.nearestTs == now
    ensures s.state != r.state ==> s.state == D.Engaged && s.nearest.Some? && s.nearest != r.nearest
  {
    if !(now > r.nearestTs + 2.0) then r
    else
      var b := D.BestUpTo(cs, |cs|);
      var r1 := r.(nearestTs := now, assoc := if D.AnyStale(cs) then Reset(r.assoc) else r.assoc);
      if b.Some? && (r.nearest.None? || cs[b.value].geo.id != r.nearest.value.id) then
        r1.(nearest := Some(cs[b.value].geo), isMarshaller := false, assoc := Reset(r1.assoc), state := D.Engaged)
      else if b.Some? then r1.(nearest := Some(cs[b.value].geo))
      else r1
  }

  function CtxOf(s: Regs, e: Env): D.Ctx
  {
    D.Ctx(e.now, s.timestamp, e.plane.beaconOn, e.parkbrakeRatio > 0.5, s.sinWavePrev > 0.0 && e.sinWave <= 0.0,
          s.isMarshaller, e.plane.dontConnectJetway, false, s.lr, s.track, s.distance)
  }

  function Decided(s: Regs, st: D.Step, sinWave: real): Regs
  {
    s.(status := st.out.status, track := st.out.track, lr := st.out.lr,
       azimuth := st.out.azimuth, distance := st.out.distance, sinWavePrev := sinWave)
  }

  /** The result of one call: new registers, the delay, and the dref array if it was rewritten. */
  datatype Turn = Turn(regs: Regs, delay: real, drefs: Option<seq<real>>)

  /** What follows the decision: switch off (with the dock command), take the transition, or publish. */
  function Finish(s2: Regs, st: D.Step, o: D.Obs, e: Env): (t: Turn)
    requires |e.plane.icao| == 4
    ensures t.drefs.Some? ==> |t.drefs.value| == DgsDrNum
  {
    if st.exit.SwitchOff? then
      Turn(s2.(state := D.Inactive, nearest := None, dockCommands := s2.dockCommands + if st.exit.dock then 1 else 0),
           st.out.delay, None)
    else if st.next != s2.state then Turn(s2.(state := st.next, timestamp := e.now), -1.0, None)
    else if s2.state > D.Active then
      var dist := ShownDistance(st.out.track, st.out.distance);
      var az := if st.out.track == 0 || st.out.track == 1 then 0.0 else st.out.azimuth;
      Turn(s2.(distance := dist, azimuth := az, sam1 := Sam1Of(s2.state, o)), st.out.delay,
           Some(DrefsOf(s2.state, st.out, dist, az, e.plane.icao, D.Brightness(e.pow15))))
    else Turn(s2, st.out.delay, None)
  }

  function Conclude(s: Regs, e: Env): (t: Turn)
    requires s.nearest.Some? && |e.plane.icao| == 4
    ensures t.drefs.Some? ==> |t.drefs.value| == DgsDrNum
  {
    var o := D.Observe(s.nearest.value, e.plane, e.trig);
    var st := Decide(s.state, o, CtxOf(s, e));
    Finish(Decided(s, st, e.sinWave), st, o, e)
  }

  /** The C `dgs_state_machine`: idle every 2 s, else search, then without a stand ACTIVE, with one `Conclude`. */
  function Cycle(r: Regs, e: Env): (t: Turn)
    requires |e.plane.icao| == 4
    ensures t.drefs.Some? ==> |t.drefs.value| == DgsDrNum
  {
    if r.state <= D.Inactive then Turn(r, 2.0, None)
    else
      var s := Search(r, e.now, e.cands);
      if s.nearest.None? then Turn(s.(state := D.Active), 2.0, None)
      else Conclude(s, e)
  }

  lemma SearchPreserves(r: Regs, now: real, cs: seq<D.Cand>)
    requires RegsOk(r) && r.state > D.Inactive
    ensures var s := Search(r, now, cs); RegsOk(s.(state := if s.nearest.None? then D.Active else s.state))
  {
  }

  lemma ConcludePreserves(s: Regs, e: Env)
    requires RegsOk(s) && s.nearest.Some? && |e.plane.icao| == 4
    ensures RegsOk(Conclude(s, e).regs)
  {
    var o := D.Observe(s.nearest.value, e.plane, e.trig);
    var st := Decide(s.state, o, CtxOf(s, e));
    DecideFollowsEdges(s.state, o, CtxOf(s, e));
    assert RegsOk(Decided(s, st, e.sinWave));
  }

  /** A cycle keeps the invariant of the registers. */
  lemma CyclePreserves(r: Regs, e: Env)
    requires RegsOk(r) && |e.plane.icao| == 4
    ensures RegsOk(Cycle(r, e).regs)
  {
    if r.state > D.Inactive {
      var s := Search(r, e.now, e.cands);
      SearchPreserves(r, e.now, e.cands);
      if s.nearest.Some? {
        ConcludePreserves(s, e);
      }
    }
  }

  /** An inactive machine, or one without a stand, comes back after 2 s; a transition defers publishing to the next frame. */
  lemma CycleDelays(r: Regs, e: Env)
    requires |e.plane.icao| == 4
    ensures r.state <= D.Inactive ==> Cycle(r, e) == Turn(r, 2.0, None)
    ensures r.state > D.Inactive && Search(r, e.now, e.cands).nearest.None? ==>
      Cycle(r, e).regs.state == D.Active && Cycle(r, e).delay == 2.0
    ensures var s := Search(r, e.now, e.cands); var t := Cycle(r, e);
      r.state > D.Inactive && s.nearest.Some? && t.regs.state != s.state && t.regs.state != D.Inactive ==>
        t.delay == -1.0 && t.drefs.None? && t.regs.timestamp == e.now
  {
  }

  // ---------------------------------------------------------------------
  // The module state
  // ---------------------------------------------------------------------

  class DgsLegacy {
    var state: int
    var timestamp: real
    var status: int
    var track: int
    var lr: int
    var azimuth: real
    var distance: real
    var nearest: Option<D.StandGeo>
    var nearestTs: real
    var assoc: Assoc
    var isMarshaller: bool
    var marshaller: (real, real, real, real)
    var sinWavePrev: real
    var sam1: D.Sam1
    var dockCommands: nat
    /** The "opensam/dgs/..." values. */
    const drefs: array<real>

    function Registers(): Regs
      reads this
    {
      Regs(state, timestamp, status, track, lr, azimuth, distance, nearest, nearestTs,
           assoc, isMarshaller, sinWavePrev, sam1, dockCommands)
    }

    predicate Valid()
      reads this
    {
      drefs.Length == DgsDrNum && RegsOk(Registers())
    }

    /** The module's initial values, then `dgs_init` switches it to INACTIVE. */
    constructor ()
      ensures Valid() && state == D.Inactive && nearest.None? && drefs[..] == seq(DgsDrNum, _ => 0.0)
      ensures dockCommands == 0
    {
      state := D.Inactive;
      timestamp, status, track, lr, azimuth, distance := 0.0, 0, 0, 0, 0.0, 0.0;
      nearest, nearestTs := None, 0.0;
      assoc := Assoc(false, 0.0, 0.0, -D.Far, 0.0);
      isMarshaller, marshaller := false, (0.0, 0.0, 0.0, 0.0);
      sinWavePrev, sam1 := 0.0, D.Sam1(0.0, 0.0, 0.0);
      dockCommands := 0;
      drefs := new real[DgsDrNum](_ => 0.0);
    }

    /** `dgs_set_inactive`. */
    method SetInactive()
      requires Valid()
      modifies this`nearest, this`state
      ensures Valid() && nearest.None? && state == D.Inactive
    {
      nearest := None;
      state := D.Inactive;
    }

    /** `dgs_set_active`: only on the ground. */
    method SetActive(onGround: bool)
      requires Valid()
      modifies this`nearest, this`state
      ensures Valid()
      ensures onGround ==> nearest.None? && state == D.Active
      ensures !onGround ==> nearest == old(nearest) && state == old(state)
    {
      if !onGround {
        return;
      }
      SetInactive();
      state := D.Active;
    }

    /** `is_dgs_active` of the C version. */
    method IsDgsActive(objX: real, objZ: real, objPsi: real, now: real) returns (active: bool)
      requires Valid()
      modifies this`assoc, this`isMarshaller
      ensures Valid()
      ensures old(nearest).None? ==> !active && assoc == old(assoc) && isMarshaller == old(isMarshaller)
      ensures old(nearest).Some? ==>
        var g := old(nearest).value;
        var (xl, zl) := D.Global2Stand(g, objX, objZ);
        var v := Associate(old(assoc), objX, objZ, xl, zl, RA(g.hdgt - objPsi), now);
        active == v.accepted && assoc == v.assoc && isMarshaller == (old(isMarshaller) && !v.isNew)
    {
      if nearest.None? {
        return false;
      }
      if objX == assoc.lastX && objZ == assoc.lastZ {
        return true;
      }
      var g := nearest.value;
      var (xl, zl) := D.Global2Stand(g, objX, objZ);
      AssociateKeepsOk(assoc, objX, objZ, xl, zl, RA(g.hdgt - objPsi), now);
      if assoc.on && zl < assoc.maxZ {
        return false;
      }
      if Abs(xl) > MaxDgsToStandX || zl < -MaxDgsToStandZ || zl > -5.0 || Between(Abs(RA(g.hdgt - objPsi)), 10.0, 170.0) {
        return false;
      }
      if zl > assoc.maxZ {
        isMarshaller := false;
        assoc := assoc.(maxZ := zl, ts := now);
      }
      assoc := assoc.(on := true, lastX := objX, lastZ := objZ);
      active := true;
    }

    /** `read_dgs_acc`: as `DgsActiveAcc` of OsDgs, with the C association. */
    method ReadDgsAcc(idx: nat, objX: real, objY: real, objZ: real, objPsi: real, now: real) returns (r: real)
      requires Valid() && idx < DgsDrNum
      modifies this`assoc, this`isMarshaller, this`marshaller
      ensures Valid()
      ensures old(nearest).None? ==> r == 0.0 && marshaller == old(marshaller)
      ensures old(nearest).Some? ==> var g := old(nearest).value;
        var (xl, zl) := D.Global2Stand(g, objX, objZ);
        var active := Associate(old(assoc), objX, objZ, xl, zl, RA(g.hdgt - objPsi), now).accepted;
        var marks := active && idx == D.DrIdent && Abs(RA(g.hdgt - objPsi)) <= 10.0 && now > assoc.ts + 2.0;
        r == (if !active || (idx == D.DrIdent && Abs(RA(g.hdgt - objPsi)) > 10.0) || marks then 0.0 else drefs[idx]) &&
        (marks ==> isMarshaller && marshaller == (objX, objY, objZ, objPsi)) &&
        (!marks ==> marshaller == old(marshaller))
    {
      var active := IsDgsActive(objX, objZ, objPsi, now);
      if !active {
        return 0.0;
      }
      if idx == D.DrIdent {
        if Abs(RA(nearest.value.hdgt - objPsi)) > 10.0 {
          return 0.0;
        }
        if now > assoc.ts + 2.0 {
          isMarshaller := true;
          marshaller := (objX, objY, objZ, objPsi);
          return 0.0;
        }
      }
      r := drefs[idx];
    }

    /** `read_sam1_acc` of the C version. */
    method ReadSam1Acc(idx: int, objX: real, objZ: real, objPsi: real, now: real) returns (r: real)
      requires Valid()
      modifies this`assoc, this`isMarshaller
      ensures Valid()
      ensures old(nearest).None? ==> r == (if idx == D.Sam1DrStatus then D.Sam1Idle else if idx == D.Sam1DrLateral then D.Sam1LateralOff else 0.0)
      ensures old(nearest).Some? ==> var g := old(nearest).value;
        var (xl, zl) := D.Global2Stand(g, objX, objZ);
        var active := Associate(old(assoc), objX, objZ, xl, zl, RA(g.hdgt - objPsi), now).accepted;
        var s := if active then sam1 else D.Sam1Off;
        r == (if idx == D.Sam1DrStatus then s.status else if idx == D.Sam1DrLateral then s.lateral
              else if idx == D.Sam1DrLongitudinal then s.longitudinal else 0.0)
    {
      var active := IsDgsActive(objX, objZ, objPsi, now);
      var s := if active then sam1 else D.Sam1Off;
      r := if idx == D.Sam1DrStatus then s.status else if idx == D.Sam1DrLateral then s.lateral
           else if idx == D.Sam1DrLongitudinal then s.longitudinal else 0.0;
    }

    /** The search step of a cycle. */
    method SearchStand(now: real, cs: seq<D.Cand>)
      requires Valid() && state > D.Inactive
      modifies this`nearest, this`nearestTs, this`assoc, this`isMarshaller, this`state
      ensures Registers() == Search(old(Registers()), now, cs)
    {
      if now > nearestTs + 2.0 {
        var best, refreshed := D.FindNearest(cs);
        if refreshed {
          assoc := Reset(assoc);
        }
        if best.Some? && (nearest.None? || cs[best.value].geo.id != nearest.value.id) {
          isMarshaller := false;
          nearest := Some(cs[best.value].geo);
          assoc := Reset(assoc);
          state := D.Engaged;
        } else if best.Some? {
          nearest := Some(cs[best.value].geo);
        }
        nearestTs := now;
      }
    }

    /** Writes the dref array of a cycle: cleared, then filled. */
    method Publish(d: seq<real>)
      requires |d| == drefs.Length
      modifies drefs
      ensures drefs[..] == d
    {
      forall i | 0 <= i < drefs.Length {
        drefs[i] := 0.0;
      }
      var i := 0;
      while i < drefs.Length
        invariant 0 <= i <= drefs.Length
        invariant drefs[..i] == d[..i]
      {
        drefs[i] := d[i];
        i := i + 1;
      }
    }

    /** `dgs_state_machine` of the C version. */
    method StateMachine(e: Env) returns (delay: real)
      requires Valid() && |e.plane.icao| == 4
      modifies this`state, this`timestamp, this`status, this`track, this`lr, this`azimuth, this`distance,
        this`nearest, this`nearestTs, this`assoc, this`isMarshaller, this`sinWavePrev, this`sam1,
        this`dockCommands, drefs
      ensures Valid()
      ensures var t := Cycle(old(Registers()), e);
        Registers() == t.regs && delay == t.delay &&
        drefs[..] == (if t.drefs.Some? then t.drefs.value else old(drefs[..]))
    {
      ghost var r0 := Registers();
      CyclePreserves(r0, e);
      if state <= D.Inactive {
        return 2.0;
      }
      SearchStand(e.now, e.cands);
      SearchPreserves(r0, e.now, e.cands);
      if nearest.None? {
        state := D.Active;
        return 2.0;
      }
      delay := ConcludeCycle(e);
    }

    method ConcludeCycle(e: Env) returns (delay: real)
      requires drefs.Length == DgsDrNum && RegsOk(Registers()) && nearest.Some? && |e.plane.icao| == 4
      modifies this`status, this`track, this`lr, this`azimuth, this`distance, this`sinWavePrev,
        this`dockCommands, this`nearest, this`state, this`timestamp, this`sam1, drefs
      ensures var t := Conclude(old(Registers()), e);
        Registers() == t.regs && delay == t.delay &&
        drefs[..] == (if t.drefs.Some? then t.drefs.value else old(drefs[..]))
    {
      var o := D.Observe(nearest.value, e.plane, e.trig);
      var st := Decide(state, o, CtxOf(Registers(), e));
      Record(st, e.sinWave);
      delay := Commit(st, o, e);
    }

    method Record(st: D.Step, sinWave: real)
      modifies this`status, this`track, this`lr, this`azimuth, this`distance, this`sinWavePrev
      ensures Registers() == Decided(old(Registers()), st, sinWave)
    {
      status, track, lr, azimuth, distance := st.out.status, st.out.track, st.out.lr, st.out.azimuth, st.out.distance;
      sinWavePrev := sinWave;
    }

    method Commit(st: D.Step, o: D.Obs, e: Env) returns (delay: real)
      requires drefs.Length == DgsDrNum && |e.plane.icao| == 4
      modifies this`dockCommands, this`nearest, this`state, this`timestamp, this`distance, this`azimuth, this`sam1, drefs
      ensures var t := Finish(old(Registers()), st, o, e);
        Registers() == t.regs && delay == t.delay &&
        drefs[..] == (if t.drefs.Some? then t.drefs.value else old(drefs[..]))
    {
      delay := st.out.delay;
      if st.exit.SwitchOff? {
        if st.exit.dock {
          dockCommands := dockCommands + 1;
        }
        nearest := None;
        state := D.Inactive;
        return;
      }
      if st.next != state {
        state := st.next;
        timestamp := e.now;
        return -1.0;
      }
      if state > D.Active {
        var dist := ShownDistance(st.out.track, st.out.distance);
        var az := if st.out.track == 0 || st.out.track == 1 then 0.0 else st.out.azimuth;
        distance, azimuth := dist, az;
        sam1 := Sam1Of(state, o);
        Publish(DrefsOf(state, st.out, dist, az, e.plane.icao, D.Brightness(e.pow15)));
      }
    }
  }
}
