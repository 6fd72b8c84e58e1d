/**
 * myplane.cpp: the user's aircraft as the jetway machine sees it.  The
 * plane keeps debounced copies of the simulator's on-ground and beacon
 * state, one-shot command flags, its doors and the parked position that
 * detects teleportation, and it serves the `opensam/jetway/...` datarefs.
 *
 * Dataref reads, the clock `now`, the global `ref_gen` and the contents of
 * the exception files and of the .acf file are parameters; a file is a
 * sequence of lines (Some) or could not be opened (None), and `sscanf` is a
 * parameter that yields a number or nothing.
 */
module MyPlanes {
  import opened Wrappers
  import opened Strings
  import opened OpenSamH
  import opened SamJws
  import opened JwCtrls
  import Seasons

  /** `kMaxDoor`: the most doors a plane has. */
  const KMaxDoor := 3
  /** Feet to metres. */
  const F2M: real := 0.3048

  /** `Plane::State`. */
  datatype PlaneState = Disabled | Idle | Parked | SelectJws | CanDock | Docking | Docked | Undocking | CantDock

  // ---------------------------------------------------------------------
  // ICAO type designator

  /** A character `plane_loaded` keeps: an upper-case letter or a digit. */
  predicate IcaoKept(c: char)
  {
    IsUpper(c) || IsDigit(c)
  }

  /** A sanitised designator holds letters, digits and blanks only. */
  predicate IcaoClean(s: string)
  {
    forall k :: 0 <= k < |s| ==> IcaoKept(s[k]) || s[k] == ' '
  }

  /** The four ICAO bytes with every character that is not upper case or a digit replaced by a blank. */
  function SanitizeIcao(raw: string): (r: string)
    ensures |r| == |raw| && IcaoClean(r)
    ensures forall k :: 0 <= k < |raw| ==> (IcaoKept(raw[k]) ==> r[k] == raw[k]) && (!IcaoKept(raw[k]) ==> r[k] == ' ')
  {
    seq(|raw|, k requires 0 <= k < |raw| => if IcaoKept(raw[k]) then raw[k] else ' ')
  }

  /** Sanitising a sanitised designator changes nothing. */
  lemma SanitizeIdempotent(raw: string)
    ensures SanitizeIcao(SanitizeIcao(raw)) == SanitizeIcao(raw)
  {
    var s := SanitizeIcao(raw);
    assert forall k :: 0 <= k < |s| ==> SanitizeIcao(s)[k] == s[k] by {
      forall k | 0 <= k < |s| ensures SanitizeIcao(s)[k] == s[k] {
        assert !IcaoKept(' ');
      }
    }
  }

  /** A clean designator is its own sanitised form. */
  lemma SanitizeClean(s: string)
    requires IcaoClean(s)
    ensures SanitizeIcao(s) == s
  {
    assert forall k :: 0 <= k < |s| ==> SanitizeIcao(s)[k] == s[k] by {
      forall k | 0 <= k < |s| ensures SanitizeIcao(s)[k] == s[k] {
        assert !IcaoKept(' ');
      }
    }
  }

  /** The DGS shows no letters in positions 1 to 3: A20N and A21N are reported as A320 and A321. */
  function IcaoRemap(icao: string): (r: string)
    ensures IcaoClean(icao) ==> IcaoClean(r)
    ensures r != icao ==> icao in {"A20N", "A21N"} && |r| == 4 && r[0] == 'A' && forall k :: 1 <= k < 4 ==> IsDigit(r[k])
  {
    if icao == "A20N" then "A320"
    else if icao == "A21N" then "A321"
    else icao
  }

  /** Remapping twice is remapping once. */
  lemma IcaoRemapIdempotent(icao: string)
    ensures IcaoRemap(IcaoRemap(icao)) == IcaoRemap(icao)
  {
  }

  // ---------------------------------------------------------------------
  // exception files

  /**
   * `line.find(icao) == 0` on the line cut at its CR: the first occurrence
   * of the designator is at the start.
   */
  predicate IcaoLine(line: string, icao: string)
  {
    IndexOf(CutAt(line, '\r'), icao) == Some(0)
  }

  /** The first occurrence is at the start exactly when the line starts with the designator. */
  lemma IcaoLineIsPrefix(line: string, icao: string)
    ensures IcaoLine(line, icao) <==> icao <= CutAt(line, '\r')
  {
    var l := CutAt(line, '\r');
    if icao <= l {
      assert OccursAt(l, icao, 0);
    }
  }

  /** Some line of the file names the designator. */
  predicate Listed(icao: string, file: Option<seq<string>>)
  {
    file.Some? && exists k :: 0 <= k < |file.value| && IcaoLine(file.value[k], icao)
  }

  /** `find_icao_in_file`: the lines are read until one starts with the designator. */
  method FindIcaoInFile(icao: string, file: Option<seq<string>>) returns (found: bool)
    ensures found <==> Listed(icao, file)
  {
    if file.None? {
      return false;
    }
    var lines := file.value;
    var i := 0;
    while i < |lines|
      invariant 0 <= i <= |lines|
      invariant forall k :: 0 <= k < i ==> !IcaoLine(lines[k], icao)
    {
      var line := CutAt(lines[i], '\r');
      if IndexOf(line, icao) == Some(0) {
        return true;
      }
      i := i + 1;
    }
    return false;
  }

  // ---------------------------------------------------------------------
  // door 2 from the .acf file

  const HasBoard2 := "P acf/_has_board_2 "
  const Board2X := "P acf/_board_2/0 "
  const Board2Y := "P acf/_board_2/1 "
  const Board2Z := "P acf/_board_2/2 "

  /** Why the scan of the .acf file ended early, if it did. */
  datatype Stop = Running | BadFlag | Found

  /** The scan's variables: coordinates parsed, the `_has_board_2` value, door 2 as written so far. */
  datatype AcfScan = AcfScan(got: nat, hasDoor2: int, door2: DoorInfo, stop: Stop)

  /** The number after a line's prefix, read by `sscanf`: None when it does not parse. */
  type ScanInt = string -> Option<int>
  type ScanReal = string -> Option<real>

  /** One coordinate line: a parsed value is converted from feet and counted. */
  function Coord(st: AcfScan, line: string, k: nat, cgY: real, cgZ: real, scanReal: ScanReal): (r: AcfScan)
    requires k < 3
    ensures r.got <= st.got + 1 && r.hasDoor2 == st.hasDoor2 && r.stop == st.stop
  {
    var pfx := if k == 0 then Board2X else if k == 1 then Board2Y else Board2Z;
    if pfx <= line && scanReal(line[17..]).Some? then
      var v := scanReal(line[17..]).value;
      var d := st.door2;
      var d' := if k == 0 then d.(x := v * F2M) else if k == 1 then d.(y := v * F2M - cgY) else d.(z := v * F2M - cgZ);
      st.(got := st.got + 1, door2 := d')
    else st
  }

  /**
   * One `fgets` line: an unparsable `_has_board_2` ends the scan, the three
   * coordinate lines are read, and the scan ends once the flag is set and
   * three coordinates were parsed.
   */
  function AcfStep(st: AcfScan, line: string, cgY: real, cgZ: real, scanInt: ScanInt, scanReal: ScanReal): (r: AcfScan)
  {
    if st.stop != Running then st
    else if HasBoard2 <= line && scanInt(line[19..]).None? then st.(stop := BadFlag)
    else
      var h := if HasBoard2 <= line then scanInt(line[19..]).value else st.hasDoor2;
      var s := Coord(Coord(Coord(st.(hasDoor2 := h), line, 0, cgY, cgZ, scanReal), line, 1, cgY, cgZ, scanReal), line, 2, cgY, cgZ, scanReal);
      if s.hasDoor2 != 0 && s.got == 3 then s.(stop := Found) else s
  }

  /** The scan over the lines read so far, starting with nothing parsed and the old door 2. */
  function AcfScanOf(lines: seq<string>, door2: DoorInfo, cgY: real, cgZ: real, scanInt: ScanInt, scanReal: ScanReal): (r: AcfScan)
    ensures r.stop == Found ==> r.got == 3 && r.hasDoor2 != 0
  {
    if lines == [] then AcfScan(0, 0, door2, Running)
    else AcfStep(AcfScanOf(lines[..|lines| - 1], door2, cgY, cgZ, scanInt, scanReal), lines[|lines| - 1], cgY, cgZ, scanInt, scanReal)
  }

  /** Once the scan has stopped, later lines change nothing: `break` leaves the loop. */
  lemma {:induction false} AcfStopped(lines: seq<string>, i: nat, door2: DoorInfo, cgY: real, cgZ: real, scanInt: ScanInt, scanReal: ScanReal)
    requires i <= |lines|
    requires AcfScanOf(lines[..i], door2, cgY, cgZ, scanInt, scanReal).stop != Running
    ensures AcfScanOf(lines, door2, cgY, cgZ, scanInt, scanReal) == AcfScanOf(lines[..i], door2, cgY, cgZ, scanInt, scanReal)
    decreases |lines| - i
  {
    if i == |lines| {
      assert lines[..i] == lines;
    } else {
      assert lines[..i + 1][..i] == lines[..i];
      AcfStopped(lines, i + 1, door2, cgY, cgZ, scanInt, scanReal);
    }
  }

  /** Without a `_has_board_2` line the flag stays 0, so the .acf file never yields door 2. */
  lemma {:induction false} AcfNeedsFlag(lines: seq<string>, door2: DoorInfo, cgY: real, cgZ: real, scanInt: ScanInt, scanReal: ScanReal)
    requires forall k :: 0 <= k < |lines| ==> !(HasBoard2 <= lines[k])
    ensures AcfScanOf(lines, door2, cgY, cgZ, scanInt, scanReal).hasDoor2 == 0
    ensures AcfScanOf(lines, door2, cgY, cgZ, scanInt, scanReal).stop == Running
  {
    if lines != [] {
      AcfNeedsFlag(lines[..|lines| - 1], door2, cgY, cgZ, scanInt, scanReal);
    }
  }

  /** The reading loop of `plane_loaded` over the .acf file. */
  method ScanAcf(lines: seq<string>, door2: DoorInfo, cgY: real, cgZ: real, scanInt: ScanInt, scanReal: ScanReal) returns (st: AcfScan)
    ensures st == AcfScanOf(lines, door2, cgY, cgZ, scanInt, scanReal)
  {
    st := AcfScan(0, 0, door2, Running);
    var i := 0;
    while i < |lines| && st.stop == Running
      invariant 0 <= i <= |lines|
      invariant st == AcfScanOf(lines[..i], door2, cgY, cgZ, scanInt, scanReal)
    {
      assert lines[..i + 1][..i] == lines[..i];
      st := AcfStep(st, lines[i], cgY, cgZ, scanInt, scanReal);
      i := i + 1;
    }
    if i < |lines| {
      AcfStopped(lines, i, door2, cgY, cgZ, scanInt, scanReal);
    } else {
      assert lines[..i] == lines;
    }
  }

  /**
   * Door 2 and the door count after `plane_loaded`: the door table's entry
   * for ICAO+"2" wins; otherwise the .acf file, when it opens, decides, and
   * door 2 keeps whatever the scan wrote into it.
   */
  function Door2Of(icao: string, old2: DoorInfo, doorMap: map<string, DoorInfo>, acfFile: Option<seq<string>>,
                   cgY: real, cgZ: real, scanInt: ScanInt, scanReal: ScanReal): (r: (nat, DoorInfo))
    ensures r.0 == 1 || r.0 == 2
  {
    if icao + "2" in doorMap then (2, doorMap[icao + "2"])
    else if acfFile.None? then (1, old2)
    else
      var st := AcfScanOf(acfFile.value, old2, cgY, cgZ, scanInt, scanReal);
      (if st.stop == Found then 2 else 1, st.door2)
  }

  /**
   * Two doors come from the door table, or from an .acf file whose
   * `_has_board_2` flag is set and whose three door 2 coordinates parsed.
   */
  lemma Door2Meaning(icao: string, old2: DoorInfo, doorMap: map<string, DoorInfo>, acfFile: Option<seq<string>>,
                     cgY: real, cgZ: real, scanInt: ScanInt, scanReal: ScanReal)
    ensures var r := Door2Of(icao, old2, doorMap, acfFile, cgY, cgZ, scanInt, scanReal);
      r.0 == 2 && icao + "2" !in doorMap ==>
        acfFile.Some? && AcfScanOf(acfFile.value, old2, cgY, cgZ, scanInt, scanReal).got == 3
        && AcfScanOf(acfFile.value, old2, cgY, cgZ, scanInt, scanReal).hasDoor2 != 0
    ensures acfFile.Some? && icao + "2" !in doorMap && (forall k :: 0 <= k < |acfFile.value| ==> !(HasBoard2 <= acfFile.value[k])) ==>
      Door2Of(icao, old2, doorMap, acfFile, cgY, cgZ, scanInt, scanReal).0 == 1
  {
    if acfFile.Some? && icao + "2" !in doorMap && (forall k :: 0 <= k < |acfFile.value| ==> !(HasBoard2 <= acfFile.value[k])) {
      AcfNeedsFlag(acfFile.value, old2, cgY, cgZ, scanInt, scanReal);
    }
  }

  /** The door 2 part of `plane_loaded`: the door table first, the .acf file only while one door is known. */
  method LoadDoor2(icao: string, old2: DoorInfo, doorMap: map<string, DoorInfo>, acfFile: Option<seq<string>>,
                   cgY: real, cgZ: real, scanInt: ScanInt, scanReal: ScanReal) returns (n: nat, d2: DoorInfo)
    ensures (n, d2) == Door2Of(icao, old2, doorMap, acfFile, cgY, cgZ, scanInt, scanReal)
  {
    n := 1;
    d2 := old2;
    var key := icao + "2";
    if key in doorMap {
      d2 := doorMap[key];
      n := n + 1;
    }
    if n == 1 && acfFile.Some? {
      var st := ScanAcf(acfFile.value, d2, cgY, cgZ, scanInt, scanReal);
      d2 := st.door2;
      if st.stop == Found {
        n := 2;
      }
    }
  }

  // ---------------------------------------------------------------------
  // debouncing

  /**
   * The on-ground flag follows the gear force, but flips at most once in
   * 10 s: the new value and the time of the flip.
   */
  function OnGroundStep(onGround: bool, ts: real, raw: bool, now: real): (r: (bool, real))
  {
    if raw != onGround && now > ts + 10.0 then (raw, now) else (onGround, ts)
  }

  /** A flip follows the raw value, happens only more than 10 s after the last one and records its time. */
  lemma OnGroundHysteresis(onGround: bool, ts: real, raw: bool, now: real)
    ensures OnGroundStep(onGround, ts, raw, now).0 != onGround <==> raw != onGround && now > ts + 10.0
    ensures OnGroundStep(onGround, ts, raw, now).0 != onGround ==> OnGroundStep(onGround, ts, raw, now) == (raw, now)
    ensures OnGroundStep(onGround, ts, raw, now).0 == onGround ==> OnGroundStep(onGround, ts, raw, now).1 == ts
  {
  }

  /** The beacon filter: the reported state, whether the raw beacon is on, and the times of its last edges. */
  datatype Beacon = Beacon(on: bool, pending: bool, onTs: real, offTs: real)

  /** The beacon after `reset_beacon`: no edge pending, both edges long ago. */
  function BeaconReset(b: Beacon): (r: Beacon)
    ensures r.on == b.on && !r.pending
  {
    b.(pending := false, onTs := -10.0, offTs := -10.0)
  }

  /**
   * One sample of the beacon switch: an edge of the raw value is only
   * recorded; the reported state follows once the raw value has stayed
   * there for more than 3 s.
   */
  function BeaconStep(b: Beacon, raw: bool, now: real): Beacon
  {
    if raw then
      if !b.pending then b.(onTs := now, pending := true)
      else if now > b.onTs + 3.0 then b.(on := true)
      else b
    else
      if b.pending then b.(offTs := now, pending := false)
      else if now > b.offTs + 3.0 then b.(on := false)
      else b
  }

  /**
   * The reported state changes only toward a raw value already seen on an
   * earlier sample, and only more than 3 s after that edge.
   */
  lemma BeaconNeedsPersistence(b: Beacon, raw: bool, now: real)
    ensures var r := BeaconStep(b, raw, now);
      r.on != b.on ==> r.on == raw && b.pending == raw && now > (if raw then b.onTs else b.offTs) + 3.0
    ensures BeaconStep(b, raw, now).pending == raw
  {
  }

  /** A one-sample glitch of the raw beacon leaves the reported state alone. */
  lemma {:induction false} BeaconGlitchIgnored(b: Beacon, t1: real, t2: real)
    requires b.pending == b.on
    ensures BeaconStep(BeaconStep(b, !b.on, t1), b.on, t2).on == b.on
    ensures BeaconStep(BeaconStep(b, !b.on, t1), b.on, t2).pending == b.pending
  {
    var b1 := BeaconStep(b, !b.on, t1);
    assert b1.on == b.on && b1.pending == !b.on;
  }

  /** A raw value that holds on two samples more than 3 s apart is reported. */
  lemma {:induction false} BeaconSettles(b: Beacon, raw: bool, t1: real, t2: real)
    requires b.pending != raw && t2 > t1 + 3.0
    ensures BeaconStep(BeaconStep(b, raw, t1), raw, t2).on == raw
  {
    var b1 := BeaconStep(b, raw, t1);
    assert b1.pending == raw && (if raw then b1.onTs else b1.offTs) == t1;
  }

  /** After `reset_beacon` a beacon that is off is reported off on the first sample once the clock passes -7 s. */
  lemma BeaconAfterReset(b: Beacon, now: real)
    requires now > -7.0
    ensures !BeaconStep(BeaconReset(b), false, now).on
  {
  }

  // ---------------------------------------------------------------------
  // the plane

  /** Some docked jetway of `jws` serves door d. */
  predicate DockedAt(jws: seq<JwCtrl>, d: int)
    reads set k | 0 <= k < |jws| :: jws[k]
  {
    exists k :: 0 <= k < |jws| && jws[k].state == JwCtrlState.Docked && jws[k].door == d
  }

  /** Adding one more jetway to the list. */
  lemma DockedAtStep(jws: seq<JwCtrl>, j: nat)
    requires j < |jws|
    ensures forall d :: DockedAt(jws[..j + 1], d) <==> DockedAt(jws[..j], d) || (jws[j].state == JwCtrlState.Docked && jws[j].door == d)
  {
    forall d
      ensures DockedAt(jws[..j + 1], d) <==> DockedAt(jws[..j], d) || (jws[j].state == JwCtrlState.Docked && jws[j].door == d)
    {
      if DockedAt(jws[..j + 1], d) && !(jws[j].state == JwCtrlState.Docked && jws[j].door == d) {
        var k :| 0 <= k < j + 1 && jws[..j + 1][k].state == JwCtrlState.Docked && jws[..j + 1][k].door == d;
        assert jws[..j][k] == jws[k];
      }
      if DockedAt(jws[..j], d) {
        var k :| 0 <= k < j && jws[..j][k].state == JwCtrlState.Docked && jws[..j][k].door == d;
        assert jws[..j + 1][k] == jws[k];
      }
      if jws[j].state == JwCtrlState.Docked && jws[j].door == d {
        assert jws[..j + 1][j] == jws[j];
      }
    }
  }

  /** One pass of the second loop of `jw_door_status_acc`: a docked jetway marks its door's slot. */
  method MarkDocked(values: array<int>, r: int, ofs: int, jws: seq<JwCtrl>, j: nat)
    requires j < |jws| && 0 <= r <= values.Length
    requires forall i :: 0 <= i < r ==> values[i] == if DockedAt(jws[..j], ofs + i) then 1 else 0
    modifies values
    ensures forall i :: 0 <= i < r ==> values[i] == if DockedAt(jws[..j + 1], ofs + i) then 1 else 0
    ensures values[r..] == old(values[r..])
  {
    DockedAtStep(jws, j);
    var ajw := jws[j];
    if ajw.state == JwCtrlState.Docked {
      var i := ajw.door - ofs;
      if 0 <= i < r {
        values[i] := 1;
      }
    }
  }

  /** The jetways of a list of controllers. */
  function JwObjs(jws: seq<JwCtrl>): set<SamJw>
    reads set k | 0 <= k < |jws| :: jws[k]
  {
    set k | 0 <= k < |jws| :: jws[k].jw
  }

  /** Every controller's jetway goes back to its initial values; nothing else changes. */
  method ResetJws(jws: seq<JwCtrl>, m: Math)
    modifies JwObjs(jws)`rotate1, JwObjs(jws)`rotate2, JwObjs(jws)`rotate3, JwObjs(jws)`extent,
      JwObjs(jws)`wheels, JwObjs(jws)`warnlight
    ensures forall k :: 0 <= k < |jws| ==> jws[k].jw.IsReset(m.tanD)
  {
    var i := 0;
    while i < |jws|
      invariant 0 <= i <= |jws|
      invariant forall k :: 0 <= k < i ==> jws[k].jw.IsReset(m.tanD)
    {
      assert jws[i].jw in JwObjs(jws);
      jws[i].Reset(m);
      i := i + 1;
    }
  }

  /** Every controller's jetway is unlocked; nothing else changes. */
  method UnlockJws(jws: seq<JwCtrl>)
    modifies JwObjs(jws)`locked
    ensures forall j :: j in JwObjs(jws) ==> !j.locked
  {
    var i := 0;
    while i < |jws|
      invariant 0 <= i <= |jws|
      invariant forall k :: 0 <= k < i ==> !jws[k].jw.locked
    {
      assert jws[i].jw in JwObjs(jws);
      jws[i].jw.locked := false;
      i := i + 1;
    }
  }

  /** `MyPlane`: the fields of `Plane` and `MyPlane` the jetway logic uses. */
  class MyPlane {
    var state: PlaneState
    var activeJws: seq<JwCtrl>
    var icao: string
    var x: real
    var y: real
    var z: real
    var psi: real
    var onGround: bool
    var onGroundTs: real
    var enginesOn: bool
    var beaconOn: bool
    var beaconOnPending: bool
    var beaconOnTs: real
    var beaconOffTs: real
    var parkbrakeSet: bool
    var useEnginesOn: bool
    var dontConnectJetway: bool
    var isHelicopter: bool
    var noseGearZ: real
    var mainGearZ: real
    var planeCgZ: real
    var nDoor: nat
    var doorInfo: seq<DoorInfo>
    var parkedX: real
    var parkedZ: real
    var parkedNgen: nat
    var autoMode: bool
    var dockRequested: bool
    var undockRequested: bool
    var toggleRequested: bool

    /** The fixed door table has `kMaxDoor` entries. */
    predicate Valid()
      reads this`doorInfo, this`nDoor
    {
      |doorInfo| == KMaxDoor && nDoor <= KMaxDoor
    }

    /**
     * The constructor: ICAO "0000", state IDLE and the beacon filter reset.
     * The fields the source leaves uninitialised start as false and 0.
     */
    constructor()
      ensures Valid() && icao == "0000" && state == Idle && activeJws == []
      ensures BeaconFilter() == BeaconReset(BeaconFilter()) && !beaconOn
    {
      state := Idle;
      activeJws := [];
      icao := "0000";
      x, y, z, psi := 0.0, 0.0, 0.0, 0.0;
      onGround, onGroundTs := false, 0.0;
      enginesOn, beaconOn := false, false;
      beaconOnPending, beaconOnTs, beaconOffTs := false, -10.0, -10.0;
      parkbrakeSet, useEnginesOn, dontConnectJetway, isHelicopter := false, false, false, false;
      noseGearZ, mainGearZ, planeCgZ := 0.0, 0.0, 0.0;
      nDoor := 0;
      doorInfo := [Seasons.DoorInfo(0.0, 0.0, 0.0), Seasons.DoorInfo(0.0, 0.0, 0.0), Seasons.DoorInfo(0.0, 0.0, 0.0)];
      parkedX, parkedZ, parkedNgen := 0.0, 0.0, 0;
      autoMode, dockRequested, undockRequested, toggleRequested := false, false, false, false;
    }

    /** The beacon filter's fields. */
    function BeaconFilter(): Beacon
      reads this`beaconOn, this`beaconOnPending, this`beaconOnTs, this`beaconOffTs
    {
      Beacon(beaconOn, beaconOnPending, beaconOnTs, beaconOffTs)
    }

    /**
     * `jw_status_acc`: `opensam/jetway/number` is the number of active
     * jetways; `opensam/jetway/status` is 0 without active jetways, 1 when
     * they can dock, 2 when docked and -1 otherwise.
     */
    function JwStatusAcc(number: bool): (r: int)
      reads this
      ensures number ==> r == |activeJws|
      ensures !number ==> -1 <= r <= 2
      ensures !number ==> (r == 0 <==> activeJws == [])
      ensures !number ==> (r == 1 <==> activeJws != [] && state == CanDock)
      ensures !number ==> (r == 2 <==> activeJws != [] && state == PlaneState.Docked)
    {
      if number then |activeJws|
      else if |activeJws| == 0 then 0
      else if state == CanDock then 1
      else if state == PlaneState.Docked then 2
      else -1
    }

    /**
     * `jw_door_status_acc`: without a buffer the array size; for a bad
     * range 0; otherwise the first n slots from `ofs` on (at most to the last
     * door) are set to whether a docked jetway serves that door.
     */
    method JwDoorStatusAcc(values: array?<int>, ofs: int, n: int) returns (r: int)
      requires values != null ==> n <= values.Length
      modifies values
      ensures values == null ==> r == KMaxDoor
      ensures values != null && (n <= 0 || ofs < 0 || ofs >= KMaxDoor) ==> r == 0 && values[..] == old(values[..])
      ensures values != null && n > 0 && 0 <= ofs < KMaxDoor ==>
        r == (if n < KMaxDoor - ofs then n else KMaxDoor - ofs) && 0 < r <= n
        && (forall i :: 0 <= i < r ==> values[i] == if DockedAt(activeJws, ofs + i) then 1 else 0)
        && values[r..] == old(values[r..])
    {
      if values == null {
        return KMaxDoor;
      }
      if n <= 0 || ofs < 0 || ofs >= KMaxDoor {
        return 0;
      }
      r := if n < KMaxDoor - ofs then n else KMaxDoor - ofs;
      for i := 0 to r
        invariant forall k :: 0 <= k < i ==> values[k] == 0
        invariant values[r..] == old(values[r..])
      {
        values[i] := 0;
      }
      for j := 0 to |activeJws|
        invariant forall i :: 0 <= i < r ==> values[i] == if DockedAt(activeJws[..j], ofs + i) then 1 else 0
        invariant values[r..] == old(values[r..])
      {
        MarkDocked(values, r, ofs, activeJws, j);
      }
      assert activeJws[..|activeJws|] == activeJws;
    }

    /** `request_dock`: only a plane that can dock takes the request. */
    method RequestDock()
      modifies this`dockRequested
      ensures dockRequested == (old(dockRequested) || state == CanDock)
    {
      if state == CanDock {
        dockRequested := true;
      }
    }

    /** `request_undock`: only a docked plane takes the request. */
    method RequestUndock()
      modifies this`undockRequested
      ensures undockRequested == (old(undockRequested) || state == PlaneState.Docked)
    {
      if state == PlaneState.Docked {
        undockRequested := true;
      }
    }

    /** `request_toggle`: taken when the plane can dock or is docked. */
    method RequestToggle()
      modifies this`toggleRequested
      ensures toggleRequested == (old(toggleRequested) || state == CanDock || state == PlaneState.Docked)
    {
      if state == CanDock || state == PlaneState.Docked {
        toggleRequested := true;
      }
    }

    /** `dock_requested`: the request is reported once and cleared. */
    method DockRequested() returns (r: bool)
      modifies this`dockRequested
      ensures r == old(dockRequested) && !dockRequested
    {
      r := dockRequested;
      dockRequested := false;
    }

    /** `undock_requested`: reported once and cleared. */
    method UndockRequested() returns (r: bool)
      modifies this`undockRequested
      ensures r == old(undockRequested) && !undockRequested
    {
      r := undockRequested;
      undockRequested := false;
    }

    /** `toggle_requested`: reported once and cleared. */
    method ToggleRequested() returns (r: bool)
      modifies this`toggleRequested
      ensures r == old(toggleRequested) && !toggleRequested
    {
      r := toggleRequested;
      toggleRequested := false;
    }

    /**
     * `auto_mode_set`: a change of mode aborts a running animation (the
     * jetways are reset and the plane goes IDLE); switching to manual while
     * the jetways wait to dock releases them and returns to PARKED.
     */
    method AutoModeSet(mode: bool, m: Math)
      modifies this`autoMode, this`state, this`activeJws
      modifies JwObjs(activeJws)`rotate1, JwObjs(activeJws)`rotate2, JwObjs(activeJws)`rotate3,
        JwObjs(activeJws)`extent, JwObjs(activeJws)`wheels, JwObjs(activeJws)`warnlight, JwObjs(activeJws)`locked
      ensures autoMode == mode
      ensures old(autoMode) == mode || old(state) !in {Docking, Undocking, CanDock} || (mode && old(state) == CanDock) ==>
        state == old(state) && activeJws == old(activeJws)
        && forall j :: j in old(JwObjs(activeJws)) ==> unchanged(j)
      ensures old(autoMode) != mode && old(state) in {Docking, Undocking} ==>
        state == Idle && activeJws == old(activeJws)
        && (forall k :: 0 <= k < |activeJws| ==> activeJws[k].jw.IsReset(m.tanD))
        && forall j :: j in old(JwObjs(activeJws)) ==> unchanged(j`locked)
      ensures old(autoMode) != mode && !mode && old(state) == CanDock ==>
        state == PlaneState.Parked && activeJws == []
        && forall j :: j in old(JwObjs(activeJws)) ==>
          !j.locked && unchanged(j`rotate1, j`rotate2, j`rotate3, j`extent, j`wheels, j`warnlight)
    {
      if autoMode == mode {
        return;
      }
      autoMode := mode;
      if state == Docking || state == Undocking {
        ResetJws(activeJws, m);
        state := Idle;
        return;
      }
      if mode && state == SelectJws {
        return;
      }
      if !mode && state == CanDock {
        UnlockJws(activeJws);
        activeJws := [];
        state := PlaneState.Parked;
      }
    }

    /**
     * `plane_loaded`: the designator is sanitised; a helicopter stops there.
     * Otherwise the exception files are consulted, door 1 comes from the
     * datarefs and door 2 from the door table, else from the .acf file;
     * finally A20N and A21N are remapped.
     */
    method PlaneLoaded(icaoRaw: string, cgYft: real, cgZft: real, gearZ: Option<(real, real)>, heli: bool, door1: DoorInfo,
                       doorMap: map<string, DoorInfo>, engineFile: Option<seq<string>>, noJetwayFile: Option<seq<string>>,
                       acfFile: Option<seq<string>>, scanInt: ScanInt, scanReal: ScanReal)
      requires Valid()
      modifies this`onGround, this`onGroundTs, this`icao, this`noseGearZ, this`mainGearZ, this`isHelicopter,
        this`useEnginesOn, this`dontConnectJetway, this`doorInfo, this`nDoor
      ensures Valid()
      ensures onGround && onGroundTs == 0.0 && isHelicopter == heli
      ensures gearZ.Some? ==> noseGearZ == -gearZ.value.0 && mainGearZ == -gearZ.value.1
      ensures gearZ.None? ==> noseGearZ == planeCgZ && mainGearZ == planeCgZ
      ensures heli ==> (icao == SanitizeIcao(icaoRaw) && !useEnginesOn && !dontConnectJetway
        && nDoor == old(nDoor) && doorInfo == old(doorInfo))
      ensures !heli ==> (icao == IcaoRemap(SanitizeIcao(icaoRaw))
        && useEnginesOn == Listed(SanitizeIcao(icaoRaw), engineFile)
        && dontConnectJetway == Listed(SanitizeIcao(icaoRaw), noJetwayFile)
        && doorInfo == [door1, Door2Of(SanitizeIcao(icaoRaw), old(doorInfo[1]), doorMap, acfFile, F2M * cgYft, F2M * cgZft, scanInt, scanReal).1, old(doorInfo[2])]
        && nDoor == Door2Of(SanitizeIcao(icaoRaw), old(doorInfo[1]), doorMap, acfFile, F2M * cgYft, F2M * cgZft, scanInt, scanReal).0)
    {
      var sane := SanitizeIcao(icaoRaw);
      LoadCommon(sane, gearZ, heli);
      if !heli {
        LoadFixedWing(sane, door1, doorMap, engineFile, noJetwayFile, acfFile, F2M * cgYft, F2M * cgZft, scanInt, scanReal);
      }
    }

    /** The part of `plane_loaded` every aircraft goes through: ground state, designator, gear and type. */
    method LoadCommon(sane: string, gearZ: Option<(real, real)>, heli: bool)
      modifies this`onGround, this`onGroundTs, this`icao, this`noseGearZ, this`mainGearZ, this`isHelicopter,
        this`useEnginesOn, this`dontConnectJetway
      ensures onGround && onGroundTs == 0.0 && isHelicopter == heli && icao == sane
      ensures gearZ.Some? ==> noseGearZ == -gearZ.value.0 && mainGearZ == -gearZ.value.1
      ensures gearZ.None? ==> noseGearZ == planeCgZ && mainGearZ == planeCgZ
      ensures !useEnginesOn && !dontConnectJetway
    {
      onGround := true;
      onGroundTs := 0.0;
      icao := sane;
      if gearZ.Some? {
        noseGearZ := -gearZ.value.0;
        mainGearZ := -gearZ.value.1;
      } else {
        noseGearZ := planeCgZ;
        mainGearZ := planeCgZ;
      }
      isHelicopter := heli;
      useEnginesOn := false;
      dontConnectJetway := false;
    }

    /** The part of `plane_loaded` after the helicopter test: exception files, doors and the remapped designator. */
    method LoadFixedWing(sane: string, door1: DoorInfo, doorMap: map<string, DoorInfo>, engineFile: Option<seq<string>>,
                         noJetwayFile: Option<seq<string>>, acfFile: Option<seq<string>>, cgY: real, cgZ: real,
                         scanInt: ScanInt, scanReal: ScanReal)
      requires Valid()
      modifies this`icao, this`useEnginesOn, this`dontConnectJetway, this`doorInfo, this`nDoor
      ensures Valid()
      ensures icao == IcaoRemap(sane)
      ensures useEnginesOn == Listed(sane, engineFile) && dontConnectJetway == Listed(sane, noJetwayFile)
      ensures doorInfo == [door1, Door2Of(sane, old(doorInfo[1]), doorMap, acfFile, cgY, cgZ, scanInt, scanReal).1, old(doorInfo[2])]
      ensures nDoor == Door2Of(sane, old(doorInfo[1]), doorMap, acfFile, cgY, cgZ, scanInt, scanReal).0
    {
      useEnginesOn := FindIcaoInFile(sane, engineFile);
      dontConnectJetway := FindIcaoInFile(sane, noJetwayFile);
      var n, d2 := LoadDoor2(sane, doorInfo[1], doorMap, acfFile, cgY, cgZ, scanInt, scanReal);
      doorInfo := [door1, d2, doorInfo[2]];
      nDoor := n;
      icao := IcaoRemap(sane);
    }

    /**
     * `update`: position, the debounced on-ground flag, the engines, the
     * beacon (debounced, or the engine state for aircraft listed in the
     * engine file) and the park brake.
     */
    method Update(now: real, pos: PlanePose, gearForce: real, engRunning: seq<int>, beacon: int, parkbrake: real)
      requires |engRunning| <= 8
      modifies this`x, this`y, this`z, this`psi, this`onGround, this`onGroundTs, this`enginesOn,
        this`beaconOn, this`beaconOnPending, this`beaconOnTs, this`beaconOffTs, this`parkbrakeSet
      ensures x == pos.x && y == pos.y && z == pos.z && psi == pos.psi
      ensures (onGround, onGroundTs) == OnGroundStep(old(onGround), old(onGroundTs), gearForce != 0.0, now)
      ensures enginesOn <==> exists i :: 0 <= i < |engRunning| && engRunning[i] != 0
      ensures useEnginesOn ==> BeaconFilter() == old(BeaconFilter()).(on := enginesOn)
      ensures !useEnginesOn ==> BeaconFilter() == BeaconStep(old(BeaconFilter()), beacon != 0, now)
      ensures parkbrakeSet == (parkbrake > 0.5)
    {
      ghost var b0 := BeaconFilter();
      x, y, z, psi := pos.x, pos.y, pos.z, pos.psi;
      assert BeaconFilter() == b0;
      UpdateOnGround(gearForce != 0.0, now);
      assert BeaconFilter() == b0;
      UpdateBeacon(engRunning, beacon, now);
      parkbrakeSet := parkbrake > 0.5;
    }

    /** The engine and beacon part of `update`. */
    method UpdateBeacon(engRunning: seq<int>, beacon: int, now: real)
      modifies this`enginesOn, this`beaconOn, this`beaconOnPending, this`beaconOnTs, this`beaconOffTs
      ensures enginesOn <==> exists i :: 0 <= i < |engRunning| && engRunning[i] != 0
      ensures useEnginesOn ==> BeaconFilter() == old(BeaconFilter()).(on := enginesOn)
      ensures !useEnginesOn ==> BeaconFilter() == BeaconStep(old(BeaconFilter()), beacon != 0, now)
    {
      enginesOn := AnyRunning(engRunning);
      if useEnginesOn {
        beaconOn := enginesOn;
      } else {
        SampleBeacon(beacon != 0, now);
      }
    }

    /** The on-ground part of `update`: the flag flips at most once in 10 s. */
    method UpdateOnGround(og: bool, now: real)
      modifies this`onGround, this`onGroundTs
      ensures (onGround, onGroundTs) == OnGroundStep(old(onGround), old(onGroundTs), og, now)
    {
      if og != onGround && now > onGroundTs + 10.0 {
        onGround := og;
        onGroundTs := now;
      }
    }

    /** The beacon part of `update`: one sample of the switch through the 3 s filter. */
    method SampleBeacon(beacon: bool, now: real)
      modifies this`beaconOn, this`beaconOnPending, this`beaconOnTs, this`beaconOffTs
      ensures BeaconFilter() == BeaconStep(old(BeaconFilter()), beacon, now)
    {
      if beacon {
        if !beaconOnPending {
          beaconOnTs := now;
          beaconOnPending := true;
        } else if now > beaconOnTs + 3.0 {
          beaconOn := true;
        }
      } else {
        if beaconOnPending {
          beaconOffTs := now;
          beaconOnPending := false;
        } else if now > beaconOffTs + 3.0 {
          beaconOn := false;
        }
      }
    }

    /**
     * `memorize_parked_pos`: the parked position and reference generation;
     * for an A321 the ToLiss exit configuration dataref, when present, sets
     * the door count (0, CLASSIC, means two doors).
     */
    method MemorizeParkedPos(refGen: nat, exitConfig: Option<int>)
      requires Valid()
      modifies this`parkedX, this`parkedZ, this`parkedNgen, this`nDoor
      ensures Valid()
      ensures !CheckTeleportation(refGen)
      ensures parkedX == x && parkedZ == z && parkedNgen == refGen
      ensures icao == "A321" && exitConfig.Some? ==> nDoor == if exitConfig.value == 0 then 2 else 1
      ensures !(icao == "A321" && exitConfig.Some?) ==> nDoor == old(nDoor)
    {
      parkedX := x;
      parkedZ := z;
      parkedNgen := refGen;
      if icao != "A321" {
        return;
      }
      if exitConfig.Some? {
        nDoor := if exitConfig.value == 0 then 2 else 1;
      }
    }

    /**
     * `check_teleportation`: on the ground, a new reference frame or a move
     * of more than 1 m in x or z since the parked position was memorised.
     */
    predicate CheckTeleportation(refGen: nat)
      reads this
    {
      onGround && (parkedNgen != refGen || Abs(parkedX - x) > 1.0 || Abs(parkedZ - z) > 1.0)
    }

    /** `reset_beacon`. */
    method ResetBeacon()
      modifies this`beaconOnPending, this`beaconOnTs, this`beaconOffTs
      ensures BeaconFilter() == BeaconReset(old(BeaconFilter()))
    {
      beaconOnPending := false;
      beaconOffTs, beaconOnTs := -10.0, -10.0;
    }
  }

  /** Teleportation needs the ground, and a plane that stays within 1 m in the same frame has not teleported. */
  lemma TeleportationMeaning(p: MyPlane, refGen: nat)
    ensures p.CheckTeleportation(refGen) ==> p.onGround
    ensures p.parkedNgen == refGen && Abs(p.parkedX - p.x) <= 1.0 && Abs(p.parkedZ - p.z) <= 1.0 ==> !p.CheckTeleportation(refGen)
    ensures p.onGround && p.parkedNgen != refGen ==> p.CheckTeleportation(refGen)
  {
  }

  /** The engine loop of `update`: any engine running, reading stops at the first. */
  method AnyRunning(er: seq<int>) returns (on: bool)
    ensures on <==> exists i :: 0 <= i < |er| && er[i] != 0
  {
    on := false;
    for i := 0 to |er|
      invariant !on && forall k :: 0 <= k < i ==> er[k] == 0
    {
      if er[i] != 0 {
        on := true;
        return;
      }
    }
  }
}
