/**
 * os_anim.cpp: the custom scenery animations a sam.xml declares.  A
 * checkbox animation drives one dataref through its animation table; the
 * menu toggles it, and a running transition that is toggled again runs
 * backwards from where it is.  `anim_acc` serves the dataref for the object
 * being drawn, `auto_drf_acc` serves the datarefs that play by themselves,
 * and `anim_state_machine` keeps the menu in step with the scenery seen last.
 *
 * Floats are reals.  The simulator's clock and the drawn object's
 * coordinates are parameters; `XPLMWorldToLocal` is the parameter `toLocal`,
 * which yields the local x and z of a latitude, longitude and elevation.
 * The menu is the list of its lines with their check marks.
 */
module OsAnim {
  import opened Wrappers
  import opened OpenSamH
  import opened SamXml
  import SamJws

  /** Largest distance in x or z between the sam.xml position and the drawn object (m). */
  const Sam2ObjMax: real := 2.5
  /** Largest heading difference between the sam.xml object and the drawn object (degrees). */
  const Sam2ObjHdgMax: real := 5.0
  /** The current scenery is switched at most this often (s). */
  const ScHold: real := 20.0
  /** A scenery not seen for this long is forgotten (s). */
  const ScForget: real := 180.0
  /** The delay `anim_state_machine` asks for (s). */
  const AnimDelay: real := 5.0
  /** `snprintf(menu_line, sizeof(menu_line) - 1, ...)` with a 70-byte line keeps 68 characters. */
  const MenuLineMax := 68

  /** `anim_state_t`. */
  datatype AnimState = Off | OffToOn | OnToOff | On

  predicate Running(st: AnimState)
  {
    st == OffToOn || st == OnToOff
  }

  // ---------------------------------------------------------------------
  // The animation table
  // ---------------------------------------------------------------------

  /**
   * What a read at index -1 of an empty table yields: `t[-1]` and `v[-1]`
   * lie outside the arrays, so their values are not determined by the table.
   */
  datatype Outside = Outside(t: real, v: real)

  /** `drf->t[drf->n_tv - 1]`: the duration of the animation. */
  function LastT(d: SamDrf, out: Outside): (r: real)
    ensures |d.t| > 0 ==> r == d.t[|d.t| - 1]
    ensures |d.t| == 0 ==> r == out.t
  {
    if |d.t| > 0 then d.t[|d.t| - 1] else out.t
  }

  /** `drf->v[drf->n_tv - 1]`: the value when on. */
  function LastV(d: SamDrf, out: Outside): (r: real)
    requires TableOk(d)
    ensures |d.v| > 0 ==> r == d.v[|d.v| - 1]
    ensures |d.v| == 0 ==> r == out.v
  {
    if |d.v| > 0 then d.v[|d.v| - 1] else out.v
  }

  /** `drf->v[0]`: the value when off; the table of a new dataref is zeroed. */
  function FirstV(d: SamDrf): (r: real)
    ensures |d.v| > 0 ==> r == d.v[0]
    ensures |d.v| == 0 ==> r == 0.0
  {
    if |d.v| > 0 then d.v[0] else 0.0
  }

  /** Times strictly increasing, as a sensible sam.xml writes them. */
  predicate Increasing(t: seq<real>)
  {
    forall i, j :: 0 <= i < j < |t| ==> t[i] < t[j]
  }

  /** Each slope joins the values at the ends of its segment. */
  predicate SlopesJoin(d: SamDrf)
    requires TableOk(d)
  {
    forall j :: 1 <= j < |d.t| ==> d.s[j] * (d.t[j] - d.t[j - 1]) == d.v[j] - d.v[j - 1]
  }

  /** The first index j >= from with dt < t[j]. */
  function FirstAbove(t: seq<real>, dt: real, from: nat): (r: Option<nat>)
    ensures r.Some? ==> from <= r.value < |t| && dt < t[r.value]
    ensures r.Some? ==> forall i :: from <= i < r.value ==> t[i] <= dt
    ensures r.None? ==> forall i :: from <= i < |t| ==> t[i] <= dt
    decreases |t| - from
  {
    if from >= |t| then None
    else if dt < t[from] then Some(from)
    else FirstAbove(t, dt, from + 1)
  }

  /**
   * The interpolation loop of `anim_acc` and `auto_drf_acc`: the value on
   * the first segment (j - 1, j) whose end lies beyond dt, or None when the
   * loop runs out.
   */
  function Interp(d: SamDrf, dt: real): (r: Option<real>)
    requires TableOk(d)
  {
    var k := FirstAbove(d.t, dt, 1);
    if k.None? then None else Some(d.v[k.value - 1] + d.s[k.value] * (dt - d.t[k.value - 1]))
  }

  /** The loop as the accessors run it. */
  method InterpLoop(d: SamDrf, dt: real) returns (found: bool, x: real)
    requires TableOk(d)
    ensures found <==> Interp(d, dt).Some?
    ensures found ==> x == Interp(d, dt).value
  {
    x := 0.0;
    var j := 1;
    while j < |d.t|
      invariant 1 <= j && FirstAbove(d.t, dt, 1) == FirstAbove(d.t, dt, j)
      decreases |d.t| - j
    {
      if dt < d.t[j] {
        return true, d.v[j - 1] + d.s[j] * (dt - d.t[j - 1]);
      }
      j := j + 1;
    }
    found := false;
  }

  /** On an increasing table the first segment whose end lies beyond dt is the one that contains dt. */
  lemma InterpOnSegment(d: SamDrf, j: nat, dt: real)
    requires TableOk(d) && Increasing(d.t) && 1 <= j < |d.t| && d.t[j - 1] <= dt < d.t[j]
    ensures Interp(d, dt) == Some(d.v[j - 1] + d.s[j] * (dt - d.t[j - 1]))
  {
    assert forall i :: 1 <= i < j ==> d.t[i] <= d.t[j - 1];
    FirstAboveIs(d.t, dt, 1, j);
    assert FirstAbove(d.t, dt, 1) == Some(j);
    assert Interp(d, dt).Some?;
    assert Interp(d, dt).value == d.v[j - 1] + d.s[j] * (dt - d.t[j - 1]);
  }

  lemma {:induction false} FirstAboveIs(t: seq<real>, dt: real, from: nat, j: nat)
    requires from <= j < |t| && dt < t[j] && forall i :: from <= i < j ==> t[i] <= dt
    ensures FirstAbove(t, dt, from) == Some(j)
    decreases j - from
  {
    if from < j {
      FirstAboveIs(t, dt, from + 1, j);
    }
  }

  /** At a knot the table's own value is read. */
  lemma InterpAtKnot(d: SamDrf, j: nat)
    requires TableOk(d) && Increasing(d.t) && 1 <= j < |d.t|
    ensures Interp(d, d.t[j - 1]) == Some(d.v[j - 1])
  {
    InterpOnSegment(d, j, d.t[j - 1]);
    assert d.s[j] * (d.t[j - 1] - d.t[j - 1]) == 0.0;
    assert Interp(d, d.t[j - 1]).value == d.v[j - 1];
  }

  /** At the last time of the table no segment lies beyond, so the loop runs out. */
  lemma InterpAtEnd(d: SamDrf)
    requires TableOk(d) && Increasing(d.t) && |d.t| > 0
    ensures Interp(d, d.t[|d.t| - 1]).None?
  {
    assert forall i :: 1 <= i < |d.t| ==> d.t[i] <= d.t[|d.t| - 1];
  }

  /** Where the slopes join the values, the value read lies between the segment's end values. */
  lemma InterpBetween(d: SamDrf, j: nat, dt: real)
    requires TableOk(d) && Increasing(d.t) && SlopesJoin(d) && 1 <= j < |d.t| && d.t[j - 1] <= dt < d.t[j]
    ensures var x := Interp(d, dt).value;
      (d.v[j - 1] <= d.v[j] ==> d.v[j - 1] <= x <= d.v[j]) && (d.v[j] <= d.v[j - 1] ==> d.v[j] <= x <= d.v[j - 1])
  {
    InterpOnSegment(d, j, dt);
    var v0, v1, s := d.v[j - 1], d.v[j], d.s[j];
    var w, e := d.t[j] - d.t[j - 1], dt - d.t[j - 1];
    assert 0.0 <= e < w && s * w == v1 - v0;
    SegmentBetween(v0, v1, s, w, e);
    assert Interp(d, dt).value == v0 + s * e;
  }

  /** v0 + s·e with s·w = v1 - v0 and 0 <= e < w lies between v0 and v1. */
  lemma SegmentBetween(v0: real, v1: real, s: real, w: real, e: real)
    requires w > 0.0 && 0.0 <= e < w && s * w == v1 - v0
    ensures v0 <= v1 ==> v0 <= v0 + s * e <= v1
    ensures v1 <= v0 ==> v1 <= v0 + s * e <= v0
  {
    if v0 <= v1 {
      assert s >= 0.0;
      MulMono(e, w, s);
    } else {
      assert s < 0.0;
      MulMono(e, w, -s);
    }
  }

  /** x <= y and m >= 0 give x·m <= y·m. */
  lemma MulMono(x: real, y: real, m: real)
    requires x <= y && m >= 0.0
    ensures x * m <= y * m
  {
  }

  // ---------------------------------------------------------------------
  // One animation: reading it and toggling it
  // ---------------------------------------------------------------------

  /**
   * How far into the table a running transition is: the time since its
   * start, or, when switching off, the time that is left of it.
   */
  function Progress(st: AnimState, startTs: real, clock: real, d: SamDrf, out: Outside): real
  {
    if st == OnToOff then LastT(d, out) - (clock - startTs) else clock - startTs
  }

  /**
   * What `anim_acc` does with an animation it accepts: a running transition
   * before its start becomes OFF, past its end ON, and otherwise
   * interpolates; OFF reads the first value and ON the last.  The value is
   * None when the interpolation loop runs out, and the walk then goes on
   * with the next animation.
   */
  function Read(st: AnimState, startTs: real, clock: real, d: SamDrf, out: Outside): (r: (AnimState, Option<real>))
    requires TableOk(d)
    ensures r.0 == Off ==> r.1 == Some(FirstV(d))
    ensures r.0 == On ==> r.1 == Some(LastV(d, out))
    ensures r.1.None? ==> r.0 == st && Running(st)
    ensures !Running(st) ==> r.0 == st
    ensures Running(st) ==> (r.0 == Off <==> Progress(st, startTs, clock, d, out) < 0.0)
    ensures Running(st) ==> (r.0 == On <==> 0.0 <= Progress(st, startTs, clock, d, out) && Progress(st, startTs, clock, d, out) > LastT(d, out))
    ensures Running(st) && 0.0 <= Progress(st, startTs, clock, d, out) <= LastT(d, out) ==>
      r.0 == st && r.1 == Interp(d, Progress(st, startTs, clock, d, out))
  {
    if Running(st) then
      var dt := Progress(st, startTs, clock, d, out);
      if dt < 0.0 then (Off, Some(FirstV(d)))
      else if dt > LastT(d, out) then (On, Some(LastV(d, out)))
      else (st, Interp(d, dt))
    else (st, Some(if st == Off then FirstV(d) else LastV(d, out)))
  }

  /** A transition exactly at its end T >= 0 gives no value: no branch of `anim_acc` returns, and the walk goes on. */
  lemma ReadAtEndGoesOn(startTs: real, d: SamDrf, out: Outside)
    requires TableOk(d) && Increasing(d.t) && |d.t| > 0 && d.t[|d.t| - 1] >= 0.0
    ensures Read(OffToOn, startTs, startTs + LastT(d, out), d, out) == (OffToOn, None)
  {
    InterpAtEnd(d);
    assert LastT(d, out) == d.t[|d.t| - 1];
    assert Progress(OffToOn, startTs, startTs + LastT(d, out), d, out) == LastT(d, out);
  }

  /** Switching off runs the table backwards: e seconds into ON_2_OFF reads what T - e seconds into OFF_2_ON reads. */
  lemma SwitchOffMirrorsSwitchOn(startTs: real, clock: real, d: SamDrf, out: Outside)
    requires TableOk(d)
    ensures var mirrored := clock - (LastT(d, out) - (clock - startTs));
      Read(OnToOff, startTs, clock, d, out).1 == Read(OffToOn, mirrored, clock, d, out).1
  {
  }

  /**
   * `anim_menu_cb` on one animation: OFF and ON_2_OFF switch on, ON and
   * OFF_2_ON switch off; a running transition is reversed by moving its
   * start so that it continues from where it is, otherwise it starts now.
   */
  function Toggle(st: AnimState, startTs: real, now: real, d: SamDrf, out: Outside): (r: (AnimState, real))
    ensures r.0 == (if st == Off || st == OnToOff then OffToOn else OnToOff)
    ensures !Running(st) ==> r.1 == now
  {
    var next := if st == Off || st == OnToOff then OffToOn else OnToOff;
    if Running(st) then (next, now - (LastT(d, out) - (now - startTs))) else (next, now)
  }

  /** Reversing a running transition keeps its place in the table, so the value read at that moment does not jump. */
  lemma ToggleKeepsPlace(st: AnimState, startTs: real, now: real, d: SamDrf, out: Outside)
    requires TableOk(d) && Running(st)
    ensures var (st', ts') := Toggle(st, startTs, now, d, out);
      Progress(st', ts', now, d, out) == Progress(st, startTs, now, d, out)
      && Read(st', ts', now, d, out).1 == Read(st, startTs, now, d, out).1
  {
  }

  /** In elapsed time a reversed transition has T minus the time it had run. */
  lemma ToggleElapsed(st: AnimState, startTs: real, now: real, d: SamDrf, out: Outside)
    requires Running(st)
    ensures now - Toggle(st, startTs, now, d, out).1 == LastT(d, out) - (now - startTs)
  {
  }

  /** Toggling twice at the same moment restores the state and the start. */
  lemma ToggleTwice(st: AnimState, startTs: real, now: real, d: SamDrf, out: Outside)
    requires Running(st)
    ensures var (st1, ts1) := Toggle(st, startTs, now, d, out);
      Toggle(st1, ts1, now, d, out) == (st, startTs)
  {
  }

  // ---------------------------------------------------------------------
  // auto_drf_acc
  // ---------------------------------------------------------------------

  /** C `fmodf(a, m)`: the sign of a and the size of |m|; None stands for the NaN that m = 0 gives. */
  function CFMod(a: real, m: real): (r: Option<real>)
    ensures r.None? <==> m == 0.0
    ensures r.Some? && 0.0 <= a ==> 0.0 <= r.value < Abs(m)
    ensures r.Some? ==> a - r.value == Trunc(a / Abs(m)) as real * Abs(m)
  {
    if m == 0.0 then None else Some(FMod(a, Abs(m)))
  }

  /** The time `auto_drf_acc` plays at: the clock, shifted per object when the phase is randomized. */
  function AutoTime(d: SamDrf, clock: real, objX: real, objY: real): real
  {
    clock + (if d.randomizePhase then Abs(objX * 0.5 + objY) else 0.0)
  }

  /**
   * `auto_drf_acc`: the table played in a loop of its duration; 0.0 when no
   * segment is found, which includes the NaN comparisons of a zero duration.
   */
  function AutoValue(d: SamDrf, out: Outside, clock: real, objX: real, objY: real): (r: real)
    requires TableOk(d)
  {
    match CFMod(AutoTime(d, clock, objX, objY), LastT(d, out))
    case None => 0.0
    case Some(dt) => match Interp(d, dt) case None => 0.0 case Some(x) => x
  }

  /** `auto_drf_acc` as the accessor runs it. */
  method AutoDrfAcc(d: SamDrf, out: Outside, clock: real, objX: real, objY: real) returns (r: real)
    requires TableOk(d)
    ensures r == AutoValue(d, out, clock, objX, objY)
  {
    var t := clock;
    if d.randomizePhase {
      t := t + Abs(objX * 0.5 + objY);
    }
    var dt := CFMod(t, LastT(d, out));
    if dt.None? {
      return 0.0;
    }
    var found, x := InterpLoop(d, dt.value);
    r := if found then x else 0.0;
  }

  /** On an increasing table of two or more entries the looped time always lies on a segment: the final `return 0.0` is never reached. */
  lemma AutoFindsSegment(d: SamDrf, out: Outside, clock: real, objX: real, objY: real)
    requires TableOk(d) && Increasing(d.t) && |d.t| >= 2 && 0.0 <= d.t[0] && 0.0 <= clock
    ensures var dt := CFMod(AutoTime(d, clock, objX, objY), LastT(d, out)).value;
      0.0 <= dt < d.t[|d.t| - 1] && Interp(d, dt).Some?
  {
    var n := |d.t|;
    assert d.t[0] < d.t[n - 1];
    var dt := CFMod(AutoTime(d, clock, objX, objY), LastT(d, out)).value;
    assert dt < d.t[n - 1];
    FirstAboveFinds(d.t, dt, 1, n - 1);
  }

  /** A time below some t[j] with j >= from has a first index above it. */
  lemma FirstAboveFinds(t: seq<real>, dt: real, from: nat, j: nat)
    requires from <= j < |t| && dt < t[j]
    ensures FirstAbove(t, dt, from).Some?
  {
  }

  // ---------------------------------------------------------------------
  // Objects, animations and the walk of anim_acc
  // ---------------------------------------------------------------------

  /** `XPLMWorldToLocal`: the local x and z of a latitude, longitude and elevation in the current frame. */
  type ToLocal = (real, real, real) -> (real, real)

  /** A `SamObj`: an object instance of a sam.xml and its local position, cached per reference frame. */
  class SamObj {
    const latitude: real
    const longitude: real
    const elevation: real
    const heading: real
    var xmlX: real
    var xmlZ: real
    var xmlRefGen: nat

    /** `new SamObj()` filled from the `instance` attributes; the cache starts zeroed. */
    constructor (latitude: real, longitude: real, elevation: real, heading: real)
      ensures this.latitude == latitude && this.longitude == longitude
      ensures this.elevation == elevation && this.heading == heading
      ensures xmlX == 0.0 && xmlZ == 0.0 && xmlRefGen == 0
    {
      this.latitude, this.longitude, this.elevation, this.heading := latitude, longitude, elevation, heading;
      xmlX, xmlZ, xmlRefGen := 0.0, 0.0, 0;
    }
  }

  /** Where the walk sees an object: its cached position in the current frame, or the fresh one. */
  function ObjView(o: SamObj, refGen: nat, toLocal: ToLocal): (real, real)
    reads o
  {
    if o.xmlRefGen < refGen then toLocal(o.latitude, o.longitude, o.elevation) else (o.xmlX, o.xmlZ)
  }

  /** A checkbox animation of a sam.xml: its dataref, its object, its state and the start of its transition. */
  class SamAnim {
    /** The checkbox's `label` (a keyword in Dafny). */
    const caption: string
    const title: string
    const drfIdx: nat
    const objIdx: nat
    var state: AnimState
    var startTs: real

    /** A checkbox whose instance and dataref both resolved; it starts OFF. */
    constructor (caption: string, title: string, drfIdx: nat, objIdx: nat)
      ensures this.caption == caption && this.title == title && this.drfIdx == drfIdx && this.objIdx == objIdx
      ensures state == Off && startTs == 0.0
    {
      this.caption, this.title, this.drfIdx, this.objIdx := caption, title, drfIdx, objIdx;
      state, startTs := Off, 0.0;
    }
  }

  /** The part of a scenery os_anim.cpp uses: its object instances and its checkbox animations. */
  datatype AnimScenery = AnimScenery(objs: seq<SamObj>, anims: seq<SamAnim>)

  /** Every animation refers to an object of its scenery and to a dataref. */
  predicate AnimsOk(sc: AnimScenery, nDrfs: nat)
  {
    forall k :: 0 <= k < |sc.anims| ==> sc.anims[k].objIdx < |sc.objs| && sc.anims[k].drfIdx < nDrfs
  }

  /** What the walk sees of one animation: its dataref, its object's heading and position, its state. */
  datatype Entry = Entry(drfIdx: nat, heading: real, x: real, z: real, state: AnimState, startTs: real)

  /** The entries of a scenery's animations, in order. */
  function Entries(sc: AnimScenery, nDrfs: nat, refGen: nat, toLocal: ToLocal): (es: seq<Entry>)
    requires AnimsOk(sc, nDrfs)
    reads sc.anims, sc.objs
    ensures |es| == |sc.anims|
  {
    seq(|sc.anims|, k requires 0 <= k < |sc.anims| reads sc.anims, sc.objs =>
      var a := sc.anims[k];
      var o := sc.objs[a.objIdx];
      var (x, z) := ObjView(o, refGen, toLocal);
      Entry(a.drfIdx, o.heading, x, z, a.state, a.startTs))
  }

  /** The request of one `anim_acc` call: the dataref and its table, the drawn object, the clock. */
  datatype Query = Query(drfIdx: nat, d: SamDrf, out: Outside, objX: real, objZ: real, objPsi: real, clock: real)

  /** An animation of the requested dataref whose object has the drawn object's heading. */
  predicate Facing(e: Entry, q: Query)
  {
    e.drfIdx == q.drfIdx && Abs(RA(e.heading - q.objPsi)) <= Sam2ObjHdgMax
  }

  /** ... and whose object lies where the drawn one is. */
  predicate Accepts(e: Entry, q: Query)
  {
    Facing(e, q) && Abs(q.objX - e.x) <= Sam2ObjMax && Abs(q.objZ - e.z) <= Sam2ObjMax
  }

  /** The globals the walk updates: `now`, the current scenery and when it was chosen. */
  datatype Track = Track(now: real, curSc: Option<nat>, curScTs: real)

  /** An accepted animation of scenery sc makes sc current unless the current one was chosen less than 20 s ago; a transition reads the clock. */
  function Touch(t: Track, sc: nat, e: Entry, q: Query): Track
  {
    var t1 := if t.now > t.curScTs + ScHold then t.(curSc := Some(sc), curScTs := t.now) else t;
    if Running(e.state) then t1.(now := q.clock) else t1
  }

  /** Where the walk stopped: the scenery and animation, the animation's new state, the value returned. */
  datatype Stop = Stop(sc: nat, k: nat, state: AnimState, value: real)

  /** The walk at the k-th animation of scenery sc: the globals after it and, if the walk stops there, the stop. */
  function StepAt(e: Entry, sc: nat, k: nat, t: Track, q: Query): (Track, Option<Stop>)
    requires TableOk(q.d)
  {
    if !Accepts(e, q) then (t, None)
    else
      var (st, v) := Read(e.state, e.startTs, q.clock, q.d, q.out);
      (Touch(t, sc, e, q), if v.Some? then Some(Stop(sc, k, st, v.value)) else None)
  }

  /** The walk over the animations of scenery sc from the k-th on: the first accepted one with a value stops it. */
  function WalkAnims(es: seq<Entry>, sc: nat, k: nat, t: Track, q: Query): (r: (Track, Option<Stop>))
    requires TableOk(q.d)
    ensures r.1.Some? ==> var p := r.1.value;
      p.sc == sc && k <= p.k < |es| && Accepts(es[p.k], q)
      && Read(es[p.k].state, es[p.k].startTs, q.clock, q.d, q.out) == (p.state, Some(p.value))
    ensures r.1.Some? ==> forall m :: k <= m < r.1.value.k && Accepts(es[m], q) ==>
      Read(es[m].state, es[m].startTs, q.clock, q.d, q.out).1.None?
    ensures r.1.None? ==> forall m :: k <= m < |es| && Accepts(es[m], q) ==>
      Read(es[m].state, es[m].startTs, q.clock, q.d, q.out).1.None?
    decreases |es| - k
  {
    if k >= |es| then (t, None)
    else
      var (t1, stop) := StepAt(es[k], sc, k, t, q);
      if stop.Some? then (t1, stop) else WalkAnims(es, sc, k + 1, t1, q)
  }

  /** The walk over the sceneries from the i-th on. */
  function WalkScs(ess: seq<seq<Entry>>, i: nat, t: Track, q: Query): (r: (Track, Option<Stop>))
    requires TableOk(q.d)
    ensures r.1.Some? ==> (i <= r.1.value.sc < |ess| && r.1.value.k < |ess[r.1.value.sc]|
      && Accepts(ess[r.1.value.sc][r.1.value.k], q))
    decreases |ess| - i
  {
    if i >= |ess| then (t, None)
    else
      var (t1, stop) := WalkAnims(ess[i], i, 0, t, q);
      if stop.Some? then (t1, stop) else WalkScs(ess, i + 1, t1, q)
  }

  // ---------------------------------------------------------------------
  // Snapshots: the walk only refreshes caches, which keeps what it sees
  // ---------------------------------------------------------------------

  /** An object's cache: local x and z and the frame they belong to. */
  datatype Cache = Cache(x: real, z: real, gen: nat)

  /** Where an object with cache c is seen in frame refGen. */
  function CacheView(o: SamObj, c: Cache, refGen: nat, toLocal: ToLocal): (real, real)
  {
    if c.gen < refGen then toLocal(o.latitude, o.longitude, o.elevation) else (c.x, c.z)
  }

  /** The entries of a scenery, with the caches and states taken from snapshots. */
  function EntriesFrom(sc: AnimScenery, nDrfs: nat, c0: map<SamObj, Cache>, s0: map<SamAnim, (AnimState, real)>,
                       refGen: nat, toLocal: ToLocal): (es: seq<Entry>)
    requires AnimsOk(sc, nDrfs) && (forall o :: o in sc.objs ==> o in c0) && (forall a :: a in sc.anims ==> a in s0)
    ensures |es| == |sc.anims|
  {
    seq(|sc.anims|, k requires 0 <= k < |sc.anims| =>
      var a := sc.anims[k];
      var o := sc.objs[a.objIdx];
      var (x, z) := CacheView(o, c0[o], refGen, toLocal);
      Entry(a.drfIdx, o.heading, x, z, s0[a].0, s0[a].1))
  }

  /** Every cache is as in c0, or was stale there and now holds the position in frame refGen. */
  predicate Refreshed(c0: map<SamObj, Cache>, refGen: nat, toLocal: ToLocal)
    reads c0.Keys
  {
    forall o :: o in c0 ==>
      Cache(o.xmlX, o.xmlZ, o.xmlRefGen) == c0[o]
      || (c0[o].gen < refGen && o.xmlRefGen == refGen && (o.xmlX, o.xmlZ) == toLocal(o.latitude, o.longitude, o.elevation))
  }

  /** Every animation has the state and start it has in s0. */
  predicate StatesAre(s0: map<SamAnim, (AnimState, real)>)
    reads s0.Keys
  {
    forall a :: a in s0 ==> (a.state, a.startTs) == s0[a]
  }

  /** Every animation other than a has the state and start it has in s0. */
  predicate StatesAreBut(s0: map<SamAnim, (AnimState, real)>, a: SamAnim)
    reads s0.Keys
  {
    forall b :: b in s0 && b != a ==> (b.state, b.startTs) == s0[b]
  }

  /**
   * The cache refresh of `anim_acc`: a cache from an older frame is
   * replaced by the position in the current one.  It changes nothing the
   * walk sees.
   */
  method Refresh(o: SamObj, ghost c0: map<SamObj, Cache>, refGen: nat, toLocal: ToLocal)
    requires o in c0 && Refreshed(c0, refGen, toLocal)
    modifies o`xmlX, o`xmlZ, o`xmlRefGen
    ensures Refreshed(c0, refGen, toLocal)
    ensures o.xmlRefGen == old(if o.xmlRefGen < refGen then refGen else o.xmlRefGen)
    ensures (o.xmlX, o.xmlZ) == CacheView(o, c0[o], refGen, toLocal)
  {
    if o.xmlRefGen < refGen {
      var (x, z) := toLocal(o.latitude, o.longitude, o.elevation);
      o.xmlX, o.xmlZ, o.xmlRefGen := x, z, refGen;
    }
  }

  // ---------------------------------------------------------------------
  // The menu
  // ---------------------------------------------------------------------

  /** An item of the animation menu: its line and its check mark. */
  datatype MenuItem = MenuItem(line: string, checked: bool)

  /** `"%s %s"` of label and title, cut to what `snprintf` keeps. */
  function MenuLine(caption: string, title: string): (r: string)
    ensures |r| <= MenuLineMax && r <= caption + " " + title
    ensures |caption + " " + title| <= MenuLineMax ==> r == caption + " " + title
  {
    var l := caption + " " + title;
    if |l| <= MenuLineMax then l else l[..MenuLineMax]
  }

  /** An animation is shown checked unless it is off or switching off. */
  predicate Checked(st: AnimState)
  {
    !(st == Off || st == OnToOff)
  }

  /** The menu `build_menu` makes for a scenery: one line per animation, in order. */
  function MenuOf(sc: AnimScenery): (m: seq<MenuItem>)
    reads sc.anims
    ensures |m| == |sc.anims|
    ensures forall k :: 0 <= k < |m| ==> m[k].checked == Checked(sc.anims[k].state)
  {
    seq(|sc.anims|, k requires 0 <= k < |sc.anims| reads sc.anims =>
      MenuItem(MenuLine(sc.anims[k].caption, sc.anims[k].title), Checked(sc.anims[k].state)))
  }

  // ---------------------------------------------------------------------
  // The module's globals
  // ---------------------------------------------------------------------

  class AnimWorld {
    /** The sceneries read at start-up and the global dataref table `sam_drfs`. */
    const sceneries: seq<AnimScenery>
    const drfs: seq<SamDrf>
    /** The reference frame globals `lat_ref`, `lon_ref` and `ref_gen`, which samjw.cpp shares. */
    const frame: SamJws.JwWorld
    /** The global timestamp `now`. */
    var now: real
    /** `cur_sc`, `cur_sc_ts` and `menu_sc`: sceneries by their index. */
    var curSc: Option<nat>
    var curScTs: real
    var menuSc: Option<nat>
    var menu: seq<MenuItem>

    /** Every animation refers to an object and a dataref, and every table is well formed; it cannot change. */
    predicate Shaped()
    {
      (forall i :: 0 <= i < |sceneries| ==> AnimsOk(sceneries[i], |drfs|))
      && (forall k :: 0 <= k < |drfs| ==> TableOk(drfs[k]))
    }

    predicate Valid()
      reads this, frame
    {
      frame.Valid() && Shaped()
      && (curSc.Some? ==> curSc.value < |sceneries|)
      && (menuSc.Some? ==> menuSc.value < |sceneries| && |menu| == |sceneries[menuSc.value].anims|)
      && (menuSc.None? ==> menu == [])
    }

    /** The globals as openSAM.cpp and os_anim.cpp initialise them. */
    constructor (sceneries: seq<AnimScenery>, drfs: seq<SamDrf>, frame: SamJws.JwWorld)
      requires frame.Valid()
      requires forall i :: 0 <= i < |sceneries| ==> AnimsOk(sceneries[i], |drfs|)
      requires forall k :: 0 <= k < |drfs| ==> TableOk(drfs[k])
      ensures Valid() && this.sceneries == sceneries && this.drfs == drfs && this.frame == frame
      ensures curSc == None && curScTs == -100.0 && menuSc == None && menu == []
    {
      this.sceneries, this.drfs, this.frame := sceneries, drfs, frame;
      now := 0.0;
      curSc, curScTs, menuSc, menu := None, -100.0, None, [];
    }

    /** Every object of every scenery. */
    function AllObjs(): set<SamObj>
    {
      set i, o | 0 <= i < |sceneries| && o in sceneries[i].objs :: o
    }

    /** Every animation of every scenery. */
    function AllAnims(): set<SamAnim>
    {
      set i, a | 0 <= i < |sceneries| && a in sceneries[i].anims :: a
    }

    /**
     * `anim_menu_cb` for the idx-th item of the menu: the animation of the
     * menu's scenery is toggled and its check mark follows.  Nothing happens
     * without a menu scenery.
     */
    method MenuCb(idx: nat, clock: real, out: Outside)
      requires Valid() && (menuSc.Some? ==> idx < |sceneries[menuSc.value].anims|)
      modifies this`now, this`menu, if menuSc.Some? then {sceneries[menuSc.value].anims[idx]} else {}
      ensures Valid() && menuSc == old(menuSc)
      ensures menuSc.None? ==> now == old(now) && menu == old(menu)
      ensures menuSc.Some? ==> var a := sceneries[menuSc.value].anims[idx];
        now == clock
        && (a.state, a.startTs) == old(Toggle(a.state, a.startTs, clock, drfs[a.drfIdx], out))
        && menu == old(menu[idx := MenuItem(menu[idx].line, a.state == Off || a.state == OnToOff)])
    {
      if menuSc.None? {
        return;
      }
      var a := sceneries[menuSc.value].anims[idx];
      now := clock;
      var st, ts := a.state, a.startTs;
      var reverse: bool;
      if st == Off || st == OnToOff {
        menu := menu[idx := menu[idx].(checked := true)];
        reverse := st == OnToOff;
        a.state := OffToOn;
      } else {
        menu := menu[idx := menu[idx].(checked := false)];
        reverse := st == OffToOn;
        a.state := OnToOff;
      }
      if reverse {
        var d := drfs[a.drfIdx];
        var tRel := now - ts;
        var dt := LastT(d, out) - tRel;
        a.startTs := now - dt;
      } else {
        a.startTs := now;
      }
    }

    /** `build_menu`: the menu is cleared and gets one line per animation of scenery i. */
    method BuildMenu(i: nat)
      requires i < |sceneries|
      modifies this`menu
      ensures menu == MenuOf(sceneries[i])
    {
      var sc := sceneries[i];
      ghost var m := MenuOf(sc);
      menu := [];
      for k := 0 to |sc.anims|
        invariant menu == m[..k]
      {
        var a := sc.anims[k];
        var chk := !(a.state == Off || a.state == OnToOff);
        assert m[k] == MenuItem(MenuLine(a.caption, a.title), chk);
        menu := menu + [MenuItem(MenuLine(a.caption, a.title), chk)];
      }
      assert m[..|sc.anims|] == m;
    }

    /**
     * `anim_state_machine`: a scenery not seen for 180 s is forgotten, and
     * the menu is rebuilt for the current scenery, or cleared, whenever it
     * was made for another one.
     */
    method StateMachine() returns (delay: real)
      requires Valid()
      modifies this`curSc, this`menuSc, this`menu
      ensures Valid() && delay == AnimDelay
      ensures curSc == if old(curSc).Some? && old(now > curScTs + ScForget) then None else old(curSc)
      ensures menuSc == curSc
      ensures menuSc != old(menuSc) ==> menu == if menuSc.Some? then MenuOf(sceneries[menuSc.value]) else []
      ensures menuSc == old(menuSc) ==> menu == old(menu)
    {
      if curSc.Some? && now > curScTs + ScForget {
        curSc := None;
      }
      if curSc != menuSc {
        menuSc := curSc;
        if menuSc.Some? {
          BuildMenu(menuSc.value);
        } else {
          menu := [];
        }
      }
      delay := AnimDelay;
    }

    /** Every scenery as the walk sees it in frame refGen. */
    function AllEntries(refGen: nat, toLocal: ToLocal): (ess: seq<seq<Entry>>)
      requires Shaped()
      reads AllAnims(), AllObjs()
      ensures |ess| == |sceneries|
    {
      seq(|sceneries|, i requires 0 <= i < |sceneries| && Shaped() reads AllAnims(), AllObjs() =>
        AnimsIn(i);
        Entries(sceneries[i], |drfs|, refGen, toLocal))
    }

    /** The animations and objects of scenery i are among all of them. */
    lemma AnimsIn(i: nat)
      requires i < |sceneries|
      ensures forall a :: a in sceneries[i].anims ==> a in AllAnims()
      ensures forall o :: o in sceneries[i].objs ==> o in AllObjs()
    {
    }

    /**
     * One animation of the walk: skipped unless it is of the dataref and
     * faces the drawn object; then its object's cache is refreshed, and if
     * the object is near, the animation is read.
     */
    method Visit(i: nat, k: nat, a: SamAnim, o: SamObj, q: Query, toLocal: ToLocal, ghost c0: map<SamObj, Cache>,
                 ghost s0: map<SamAnim, (AnimState, real)>, ghost e: Entry)
      returns (found: bool, x: real, ghost stop: Option<Stop>)
      requires Valid() && i < |sceneries| && k < |sceneries[i].anims| && q.drfIdx < |drfs| && q.d == drfs[q.drfIdx]
      requires a == sceneries[i].anims[k] && o == sceneries[i].objs[a.objIdx]
      requires o in c0 && a in s0 && Refreshed(c0, frame.refGen, toLocal) && StatesAre(s0)
        && e == Entry(a.drfIdx, o.heading, CacheView(o, c0[o], frame.refGen, toLocal).0,
                      CacheView(o, c0[o], frame.refGen, toLocal).1, s0[a].0, s0[a].1)
      modifies this`now, this`curSc, this`curScTs, a`state, o`xmlX, o`xmlZ, o`xmlRefGen
      ensures Valid()
      ensures Refreshed(c0, frame.refGen, toLocal)
      ensures (Track(now, curSc, curScTs), stop) == StepAt(e, i, k, old(Track(now, curSc, curScTs)), q)
      ensures found == stop.Some? && (found ==> x == stop.value.value && a.state == stop.value.state && stop.value.k == k)
      ensures !found ==> StatesAre(s0)
      ensures found ==> StatesAreBut(s0, a)
    {
      found, x, stop := false, 0.0, None;
      var near := Near(a, o, q, toLocal, c0);
      if near {
        found, x, stop := ReadNear(i, k, a, q, s0, e);
      }
    }

    /** An accepted animation: scenery i may become current, and the animation is read. */
    method ReadNear(i: nat, k: nat, a: SamAnim, q: Query, ghost s0: map<SamAnim, (AnimState, real)>, ghost e: Entry)
      returns (found: bool, x: real, ghost stop: Option<Stop>)
      requires Valid() && i < |sceneries| && q.drfIdx < |drfs| && q.d == drfs[q.drfIdx]
      requires a in s0 && StatesAre(s0) && e.state == a.state && e.startTs == a.startTs && Accepts(e, q)
      modifies this`now, this`curSc, this`curScTs, a`state
      ensures Valid()
      ensures (Track(now, curSc, curScTs), stop) == StepAt(e, i, k, old(Track(now, curSc, curScTs)), q)
      ensures found == stop.Some? && (found ==> x == stop.value.value && a.state == stop.value.state && stop.value.k == k)
      ensures !found ==> StatesAre(s0)
      ensures found ==> StatesAreBut(s0, a)
    {
      found, x, stop := false, 0.0, None;
      Choose(i);
      var v := ReadAnim(a, q);
      if v.Some? {
        found, x, stop := true, v.value, Some(Stop(i, k, a.state, v.value));
      }
    }

    /** An accepted animation of scenery i makes it current, unless the current one was chosen less than 20 s ago. */
    method Choose(i: nat)
      requires Valid() && i < |sceneries|
      modifies this`curSc, this`curScTs
      ensures Valid()
      ensures old(now > curScTs + ScHold) ==> curSc == Some(i) && curScTs == now
      ensures old(now <= curScTs + ScHold) ==> curSc == old(curSc) && curScTs == old(curScTs)
    {
      if now > curScTs + ScHold {
        curSc, curScTs := Some(i), now;
      }
    }

    /**
     * The test of `anim_acc` on one animation: of the dataref, facing the
     * drawn object and, with its object's cache refreshed, near it.
     */
    method Near(a: SamAnim, o: SamObj, q: Query, toLocal: ToLocal, ghost c0: map<SamObj, Cache>) returns (near: bool)
      requires o in c0 && Refreshed(c0, frame.refGen, toLocal)
      modifies o`xmlX, o`xmlZ, o`xmlRefGen
      ensures Refreshed(c0, frame.refGen, toLocal)
      ensures var (x, z) := CacheView(o, c0[o], frame.refGen, toLocal);
        near <==> Accepts(Entry(a.drfIdx, o.heading, x, z, a.state, a.startTs), q)
    {
      near := false;
      if a.drfIdx == q.drfIdx && Abs(RA(o.heading - q.objPsi)) <= Sam2ObjHdgMax {
        Refresh(o, c0, frame.refGen, toLocal);
        near := Abs(q.objX - o.xmlX) <= Sam2ObjMax && Abs(q.objZ - o.xmlZ) <= Sam2ObjMax;
      }
    }

    /**
     * The transition part of `anim_acc` on an accepted animation: a running
     * transition reads the clock into `now` and may end; the value is the
     * animation's, or None when the interpolation loop runs out.
     */
    method ReadAnim(a: SamAnim, q: Query) returns (v: Option<real>)
      requires Valid() && TableOk(q.d)
      modifies this`now, a`state
      ensures Valid()
      ensures (a.state, v) == Read(old(a.state), a.startTs, q.clock, q.d, q.out)
      ensures now == (if Running(old(a.state)) then q.clock else old(now))
    {
      v := None;
      if a.state == OffToOn || a.state == OnToOff {
        now := q.clock;
        var dt := now - a.startTs;
        if a.state == OnToOff {
          dt := LastT(q.d, q.out) - dt;
        }
        if dt < 0.0 {
          a.state := Off;
        } else if dt > LastT(q.d, q.out) {
          a.state := On;
        } else {
          var f, y := InterpLoop(q.d, dt);
          if f {
            return Some(y);
          }
        }
      }
      if a.state == Off {
        v := Some(FirstV(q.d));
      } else if a.state == On {
        v := Some(LastV(q.d, q.out));
      }
    }

    /** The walk of `anim_acc` over the animations of scenery i, up to the first that gives a value. */
    method WalkScenery(i: nat, q: Query, toLocal: ToLocal, ghost c0: map<SamObj, Cache>,
                       ghost s0: map<SamAnim, (AnimState, real)>, ghost es: seq<Entry>)
      returns (found: bool, x: real, ghost stop: Option<Stop>)
      requires Valid() && i < |sceneries| && q.drfIdx < |drfs| && q.d == drfs[q.drfIdx]
      requires (forall o :: o in sceneries[i].objs ==> o in c0) && (forall a :: a in sceneries[i].anims ==> a in s0)
      requires Refreshed(c0, frame.refGen, toLocal) && StatesAre(s0)
      requires es == EntriesFrom(sceneries[i], |drfs|, c0, s0, frame.refGen, toLocal)
      modifies this`now, this`curSc, this`curScTs, (set a | a in sceneries[i].anims)`state
      modifies (set o | o in sceneries[i].objs)`xmlX, (set o | o in sceneries[i].objs)`xmlZ
      modifies (set o | o in sceneries[i].objs)`xmlRefGen
      ensures Valid() && Refreshed(c0, frame.refGen, toLocal)
      ensures (Track(now, curSc, curScTs), stop) == WalkAnims(es, i, 0, old(Track(now, curSc, curScTs)), q)
      ensures found == stop.Some?
      ensures found ==> (x == stop.value.value && stop.value.k < |sceneries[i].anims|
        && sceneries[i].anims[stop.value.k].state == stop.value.state
        && StatesAreBut(s0, sceneries[i].anims[stop.value.k]))
      ensures !found ==> StatesAre(s0)
    {
      found, x, stop := false, 0.0, None;
      ghost var t0 := Track(now, curSc, curScTs);
      var k := 0;
      while k < |sceneries[i].anims|
        invariant k <= |sceneries[i].anims|
        invariant Valid() && Refreshed(c0, frame.refGen, toLocal) && StatesAre(s0) && !found && stop == None
        invariant WalkAnims(es, i, k, Track(now, curSc, curScTs), q) == WalkAnims(es, i, 0, t0, q)
      {
        found, x, stop := VisitAt(i, k, q, toLocal, c0, s0, es);
        if found {
          return;
        }
        k := k + 1;
      }
      assert k == |es|;
    }

    /** Animation k of scenery i in the walk: a value stops the walk, else it goes on with animation k + 1. */
    method VisitAt(i: nat, k: nat, q: Query, toLocal: ToLocal, ghost c0: map<SamObj, Cache>,
                   ghost s0: map<SamAnim, (AnimState, real)>, ghost es: seq<Entry>)
      returns (found: bool, x: real, ghost stop: Option<Stop>)
      requires Valid() && i < |sceneries| && k < |sceneries[i].anims| && q.drfIdx < |drfs| && q.d == drfs[q.drfIdx]
      requires (forall o :: o in sceneries[i].objs ==> o in c0) && (forall a :: a in sceneries[i].anims ==> a in s0)
      requires Refreshed(c0, frame.refGen, toLocal) && StatesAre(s0)
      requires es == EntriesFrom(sceneries[i], |drfs|, c0, s0, frame.refGen, toLocal)
      modifies this`now, this`curSc, this`curScTs, (set a | a in sceneries[i].anims)`state
      modifies (set o | o in sceneries[i].objs)`xmlX, (set o | o in sceneries[i].objs)`xmlZ
      modifies (set o | o in sceneries[i].objs)`xmlRefGen
      ensures Valid() && Refreshed(c0, frame.refGen, toLocal)
      ensures found ==> ((Track(now, curSc, curScTs), stop) == WalkAnims(es, i, k, old(Track(now, curSc, curScTs)), q)
        && stop.Some? && x == stop.value.value && stop.value.k < |sceneries[i].anims|
        && sceneries[i].anims[stop.value.k].state == stop.value.state
        && StatesAreBut(s0, sceneries[i].anims[stop.value.k]))
      ensures !found ==> (stop == None && StatesAre(s0)
        && WalkAnims(es, i, k + 1, Track(now, curSc, curScTs), q) == WalkAnims(es, i, k, old(Track(now, curSc, curScTs)), q))
    {
      var a := sceneries[i].anims[k];
      var o := sceneries[i].objs[a.objIdx];
      ghost var tk := Track(now, curSc, curScTs);
      found, x, stop := Visit(i, k, a, o, q, toLocal, c0, s0, es[k]);
      assert WalkAnims(es, i, k, tk, q) == (if stop.Some? then (Track(now, curSc, curScTs), stop)
                                            else WalkAnims(es, i, k + 1, Track(now, curSc, curScTs), q));
    }

    /**
     * `anim_acc` for the dataref drfIdx, drawn at (objX, objZ) with heading
     * objPsi: a shift of the reference frame starts a new generation; then
     * the sceneries are walked in order and the first animation that gives a
     * value decides the result, 0.0 when none does.
     */
    method AnimAcc(drfIdx: nat, objX: real, objZ: real, objPsi: real, latR: real, lonR: real, clock: real,
                   out: Outside, toLocal: ToLocal) returns (r: real, ghost stop: Option<Stop>)
      requires Valid() && drfIdx < |drfs|
      modifies this`now, this`curSc, this`curScTs, frame`latRef, frame`lonRef, frame`refGen
      modifies AllAnims()`state, AllObjs()`xmlX, AllObjs()`xmlZ, AllObjs()`xmlRefGen
      ensures Valid()
      ensures frame.latRef == latR && frame.lonRef == lonR
      ensures frame.refGen == old(if latR != frame.latRef || lonR != frame.lonRef then frame.refGen + 1 else frame.refGen)
      ensures var q := Query(drfIdx, drfs[drfIdx], out, objX, objZ, objPsi, clock); var g := frame.refGen;
        (Track(now, curSc, curScTs), stop) == old(WalkScs(AllEntries(g, toLocal), 0, Track(now, curSc, curScTs), q))
      ensures stop.None? ==> r == 0.0
      ensures stop.Some? ==> stop.value.sc < |sceneries| && stop.value.k < |sceneries[stop.value.sc].anims|
      ensures stop.Some? ==> (r == stop.value.value
        && sceneries[stop.value.sc].anims[stop.value.k].state == stop.value.state)
      ensures forall a :: a in AllAnims() && (stop.None? || a != sceneries[stop.value.sc].anims[stop.value.k]) ==>
        a.state == old(a.state)
    {
      ShiftFrame(latR, lonR);
      var q := Query(drfIdx, drfs[drfIdx], out, objX, objZ, objPsi, clock);
      ghost var g := frame.refGen;
      ghost var c0, s0 := Caches(), States();
      ghost var ess := AllEntries(g, toLocal);
      assert ess == old(AllEntries(g, toLocal));
      SnapshotsSee(g, toLocal);
      r, stop := WalkAll(q, toLocal, c0, s0, ess);
    }

    /** The check for a shift of the reference frame at the head of `anim_acc`. */
    method ShiftFrame(latR: real, lonR: real)
      requires Valid()
      modifies frame`latRef, frame`lonRef, frame`refGen
      ensures Valid() && frame.latRef == latR && frame.lonRef == lonR
      ensures frame.refGen == old(if latR != frame.latRef || lonR != frame.lonRef then frame.refGen + 1 else frame.refGen)
    {
      if latR != frame.latRef || lonR != frame.lonRef {
        frame.latRef, frame.lonRef := latR, lonR;
        frame.refGen := frame.refGen + 1;
      }
    }

    /** The walk of `anim_acc` over the sceneries in order, seen through snapshots of the caches and states. */
    method WalkAll(q: Query, toLocal: ToLocal, ghost c0: map<SamObj, Cache>, ghost s0: map<SamAnim, (AnimState, real)>,
                   ghost ess: seq<seq<Entry>>) returns (r: real, ghost stop: Option<Stop>)
      requires Valid() && q.drfIdx < |drfs| && q.d == drfs[q.drfIdx] && |ess| == |sceneries|
      requires Refreshed(c0, frame.refGen, toLocal) && StatesAre(s0) && Covers(c0, s0, ess, frame.refGen, toLocal)
      modifies this`now, this`curSc, this`curScTs, AllAnims()`state, AllObjs()`xmlX, AllObjs()`xmlZ, AllObjs()`xmlRefGen
      ensures Valid()
      ensures (Track(now, curSc, curScTs), stop) == WalkScs(ess, 0, old(Track(now, curSc, curScTs)), q)
      ensures stop.None? ==> r == 0.0 && StatesAre(s0)
      ensures stop.Some? ==> (stop.value.sc < |sceneries| && stop.value.k < |sceneries[stop.value.sc].anims|
        && r == stop.value.value && sceneries[stop.value.sc].anims[stop.value.k].state == stop.value.state
        && StatesAreBut(s0, sceneries[stop.value.sc].anims[stop.value.k]))
    {
      ghost var t0 := Track(now, curSc, curScTs);
      r, stop := 0.0, None;
      var i := 0;
      while i < |sceneries|
        invariant i <= |sceneries| && Valid() && frame.refGen == old(frame.refGen) && Covers(c0, s0, ess, frame.refGen, toLocal)
        invariant Refreshed(c0, frame.refGen, toLocal) && r == 0.0 && stop == None && StatesAre(s0)
        invariant WalkScs(ess, i, Track(now, curSc, curScTs), q) == WalkScs(ess, 0, t0, q)
      {
        AnimsIn(i);
        var found;
        found, r, stop := WalkStep(i, q, toLocal, c0, s0, ess);
        if found {
          return;
        }
        r := 0.0;
        i := i + 1;
      }
    }

    /** Scenery i of the walk: an animation with a value stops the walk, else the walk goes on with scenery i + 1. */
    method WalkStep(i: nat, q: Query, toLocal: ToLocal, ghost c0: map<SamObj, Cache>,
                    ghost s0: map<SamAnim, (AnimState, real)>, ghost ess: seq<seq<Entry>>)
      returns (found: bool, r: real, ghost stop: Option<Stop>)
      requires Valid() && q.drfIdx < |drfs| && q.d == drfs[q.drfIdx] && i < |sceneries|
      requires Refreshed(c0, frame.refGen, toLocal) && StatesAre(s0) && Covers(c0, s0, ess, frame.refGen, toLocal)
      modifies this`now, this`curSc, this`curScTs, (set a | a in sceneries[i].anims)`state
      modifies (set o | o in sceneries[i].objs)`xmlX, (set o | o in sceneries[i].objs)`xmlZ
      modifies (set o | o in sceneries[i].objs)`xmlRefGen
      ensures Valid() && Refreshed(c0, frame.refGen, toLocal)
      ensures found ==> ((Track(now, curSc, curScTs), stop) == WalkScs(ess, i, old(Track(now, curSc, curScTs)), q)
        && stop.Some? && stop.value.sc < |sceneries| && stop.value.k < |sceneries[stop.value.sc].anims|
        && r == stop.value.value && sceneries[stop.value.sc].anims[stop.value.k].state == stop.value.state
        && StatesAreBut(s0, sceneries[stop.value.sc].anims[stop.value.k]))
      ensures !found ==> (stop == None && StatesAre(s0)
        && WalkScs(ess, i + 1, Track(now, curSc, curScTs), q) == WalkScs(ess, i, old(Track(now, curSc, curScTs)), q))
    {
      ghost var ti := Track(now, curSc, curScTs);
      found, r, stop := WalkScenery(i, q, toLocal, c0, s0, ess[i]);
      assert WalkScs(ess, i, ti, q) == (if stop.Some? then (Track(now, curSc, curScTs), stop)
                                        else WalkScs(ess, i + 1, Track(now, curSc, curScTs), q));
    }

    /** The caches of all objects as they are now. */
    function Caches(): map<SamObj, Cache>
      reads AllObjs()
    {
      map o | o in AllObjs() :: Cache(o.xmlX, o.xmlZ, o.xmlRefGen)
    }

    /** The states and starts of all animations as they are now. */
    function States(): map<SamAnim, (AnimState, real)>
      reads AllAnims()
    {
      map a | a in AllAnims() :: (a.state, a.startTs)
    }

    /** The snapshots hold every object and animation, and ess is what the walk sees through them in frame g. */
    predicate Covers(c0: map<SamObj, Cache>, s0: map<SamAnim, (AnimState, real)>, ess: seq<seq<Entry>>,
                     g: nat, toLocal: ToLocal)
    {
      Shaped() && |ess| == |sceneries|
      && forall i :: 0 <= i < |sceneries| ==>
        (forall o :: o in sceneries[i].objs ==> o in c0) && (forall a :: a in sceneries[i].anims ==> a in s0)
        && ess[i] == EntriesFrom(sceneries[i], |drfs|, c0, s0, g, toLocal)
    }

    /** Snapshots taken of the current caches and states see what the walk sees. */
    lemma SnapshotsSee(g: nat, toLocal: ToLocal)
      requires Shaped()
      ensures Refreshed(Caches(), g, toLocal) && StatesAre(States())
      ensures Covers(Caches(), States(), AllEntries(g, toLocal), g, toLocal)
    {
      var c0, s0 := Caches(), States();
      forall i | 0 <= i < |sceneries|
        ensures (forall o :: o in sceneries[i].objs ==> o in c0) && (forall a :: a in sceneries[i].anims ==> a in s0)
        ensures AllEntries(g, toLocal)[i] == EntriesFrom(sceneries[i], |drfs|, c0, s0, g, toLocal)
      {
        AnimsIn(i);
        var es, fs := AllEntries(g, toLocal)[i], EntriesFrom(sceneries[i], |drfs|, c0, s0, g, toLocal);
        assert es == Entries(sceneries[i], |drfs|, g, toLocal);
        assert |es| == |fs|;
        forall k | 0 <= k < |es| ensures es[k] == fs[k] {
          var a := sceneries[i].anims[k];
          assert a in sceneries[i].anims;
          var o := sceneries[i].objs[a.objIdx];
          assert o in sceneries[i].objs;
          assert ObjView(o, g, toLocal) == CacheView(o, c0[o], g, toLocal);
        }
      }
    }
  }
}
