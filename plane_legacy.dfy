/**
 * plane.cpp: the earlier version of the user's aircraft.  It differs from
 * myplane.cpp in that only A20N is remapped, the A321 door configuration
 * comes from the livery's `livery.tlscfg` file, the engine state is read on
 * demand by `engines_on`, and the position is read from the simulator
 * whenever it is needed (here: a parameter).
 */
module PlaneLegacy {
  import opened Wrappers
  import opened Strings
  import opened OpenSamH
  import opened JwCtrls
  import opened MyPlanes

  /** The earlier remapping: only A20N becomes A320. */
  function IcaoRemapLegacy(icao: string): (r: string)
    ensures r != icao ==> icao == "A20N" && r == "A320"
  {
    if icao == "A20N" then "A320" else icao
  }

  /** The two versions disagree exactly on the A321neo. */
  lemma RemapVersionsDiffer(icao: string)
    ensures IcaoRemapLegacy(icao) != IcaoRemap(icao) <==> icao == "A21N"
  {
  }

  /** The first line of the livery configuration that mentions the exit configuration. */
  function FirstExitLine(lines: seq<string>): (r: Option<nat>)
    ensures r.Some? ==> (r.value < |lines| && Contains(lines[r.value], "exit_Configuration")
      && forall k :: 0 <= k < r.value ==> !Contains(lines[k], "exit_Configuration"))
    ensures r.None? ==> forall k :: 0 <= k < |lines| ==> !Contains(lines[k], "exit_Configuration")
  {
    if lines == [] then None
    else if Contains(lines[0], "exit_Configuration") then Some(0)
    else match FirstExitLine(lines[1..])
      case None => None
      case Some(k) => Some(k + 1)
  }

  /** The livery asks for one door: its first exit configuration line is not CLASSIC. */
  predicate OneDoorLivery(lines: seq<string>)
  {
    FirstExitLine(lines).Some? && !Contains(lines[FirstExitLine(lines).value], "CLASSIC")
  }

  /** `engines_on`: some engine-running flag is set; the scan returns at the first. */
  method EnginesOn(er: seq<int>) returns (on: bool)
    ensures on <==> exists i :: 0 <= i < |er| && er[i] != 0
  {
    for i := 0 to |er|
      invariant forall k :: 0 <= k < i ==> er[k] == 0
    {
      if er[i] != 0 {
        return true;
      }
    }
    return false;
  }

  /** The scan of `livery_loaded`: it stops at the first exit configuration line. */
  method ScanLivery(lines: seq<string>) returns (oneDoor: bool)
    ensures oneDoor == OneDoorLivery(lines)
  {
    var i := 0;
    while i < |lines|
      invariant 0 <= i <= |lines|
      invariant forall k :: 0 <= k < i ==> !Contains(lines[k], "exit_Configuration")
    {
      if Contains(lines[i], "exit_Configuration") {
        return !Contains(lines[i], "CLASSIC");
      }
      i := i + 1;
    }
    return false;
  }

  /** `MyPlane` of plane.cpp, with the fields its methods use. */
  class LegacyPlane {
    var icao: string
    var onGround: bool
    var onGroundTs: real
    var beaconOn: bool
    var beaconOnPending: bool
    var beaconOnTs: real
    var beaconOffTs: real
    var useEnginesOn: bool
    var dontConnectJetway: bool
    var isHelicopter: bool
    var noseGearZ: real
    var mainGearZ: real
    var planeCgZ: real
    var nDoor: nat
    var doorInfo: seq<DoorInfo>
    var parkedX: real
    var parkedZ: real
    var parkedNgen: nat

    /** The fixed door table has `kMaxDoor` entries. */
    predicate Valid()
      reads this`doorInfo, this`nDoor
    {
      |doorInfo| == KMaxDoor && nDoor <= KMaxDoor
    }

    /** The beacon filter's fields. */
    function BeaconFilter(): Beacon
      reads this`beaconOn, this`beaconOnPending, this`beaconOnTs, this`beaconOffTs
    {
      Beacon(beaconOn, beaconOnPending, beaconOnTs, beaconOffTs)
    }

    /** The constructor: ICAO "0000" and the beacon filter reset; other fields start as false and 0. */
    constructor()
      ensures Valid() && icao == "0000" && BeaconFilter() == BeaconReset(BeaconFilter()) && !beaconOn
    {
      icao := "0000";
      onGround, onGroundTs := false, 0.0;
      beaconOn, beaconOnPending, beaconOnTs, beaconOffTs := false, false, -10.0, -10.0;
      useEnginesOn, dontConnectJetway, isHelicopter := false, false, false;
      noseGearZ, mainGearZ, planeCgZ := 0.0, 0.0, 0.0;
      nDoor := 0;
      doorInfo := [Seasons.DoorInfo(0.0, 0.0, 0.0), Seasons.DoorInfo(0.0, 0.0, 0.0), Seasons.DoorInfo(0.0, 0.0, 0.0)];
      parkedX, parkedZ, parkedNgen := 0.0, 0.0, 0;
    }

    /**
     * `plane_loaded`: as in myplane.cpp (sanitised designator, helicopters
     * stop early, exception files, door 1 from the datarefs, door 2 from the
     * door table or the .acf file), but only A20N is remapped.
     */
    method PlaneLoaded(icaoRaw: string, cgYft: real, cgZft: real, gearZ: Option<(real, real)>, heli: bool, door1: DoorInfo,
                       doorMap: map<string, DoorInfo>, engineFile: Option<seq<string>>, noJetwayFile: Option<seq<string>>,
                       acfFile: Option<seq<string>>, scanInt: ScanInt, scanReal: ScanReal)
      requires Valid()
      modifies this`onGround, this`onGroundTs, this`icao, this`noseGearZ, this`mainGearZ, this`isHelicopter,
        this`useEnginesOn, this`dontConnectJetway, this`doorInfo, this`nDoor
      ensures Valid()
      ensures onGround && onGroundTs == 0.0 && isHelicopter == heli
      ensures gearZ.Some? ==> noseGearZ == -gearZ.value.0 && mainGearZ == -gearZ.value.1
      ensures gearZ.None? ==> noseGearZ == planeCgZ && mainGearZ == planeCgZ
      ensures heli ==> (icao == SanitizeIcao(icaoRaw) && !useEnginesOn && !dontConnectJetway
        && nDoor == old(nDoor) && doorInfo == old(doorInfo))
      ensures !heli ==> (icao == IcaoRemapLegacy(SanitizeIcao(icaoRaw))
        && useEnginesOn == Listed(SanitizeIcao(icaoRaw), engineFile)
        && dontConnectJetway == Listed(SanitizeIcao(icaoRaw), noJetwayFile)
        && doorInfo == [door1, Door2Of(SanitizeIcao(icaoRaw), old(doorInfo[1]), doorMap, acfFile, F2M * cgYft, F2M * cgZft, scanInt, scanReal).1, old(doorInfo[2])]
        && nDoor == Door2Of(SanitizeIcao(icaoRaw), old(doorInfo[1]), doorMap, acfFile, F2M * cgYft, F2M * cgZft, scanInt, scanReal).0)
    {
      var sane := SanitizeIcao(icaoRaw);
      LoadCommon(sane, gearZ, heli);
      if !heli {
        LoadFixedWing(sane, door1, doorMap, engineFile, noJetwayFile, acfFile, F2M * cgYft, F2M * cgZft, scanInt, scanReal);
      }
    }

    /** The part of `plane_loaded` every aircraft goes through. */
    method LoadCommon(sane: string, gearZ: Option<(real, real)>, heli: bool)
      modifies this`onGround, this`onGroundTs, this`icao, this`noseGearZ, this`mainGearZ, this`isHelicopter,
        this`useEnginesOn, this`dontConnectJetway
      ensures onGround && onGroundTs == 0.0 && isHelicopter == heli && icao == sane
      ensures gearZ.Some? ==> noseGearZ == -gearZ.value.0 && mainGearZ == -gearZ.value.1
      ensures gearZ.None? ==> noseGearZ == planeCgZ && mainGearZ == planeCgZ
      ensures !useEnginesOn && !dontConnectJetway
    {
      onGround := true;
      onGroundTs := 0.0;
      icao := sane;
      if gearZ.Some? {
        noseGearZ := -gearZ.value.0;
        mainGearZ := -gearZ.value.1;
      } else {
        noseGearZ := planeCgZ;
        mainGearZ := planeCgZ;
      }
      isHelicopter := heli;
      useEnginesOn := false;
      dontConnectJetway := false;
    }

    /** The part of `plane_loaded` after the helicopter test. */
    method LoadFixedWing(sane: string, door1: DoorInfo, doorMap: map<string, DoorInfo>, engineFile: Option<seq<string>>,
                         noJetwayFile: Option<seq<string>>, acfFile: Option<seq<string>>, cgY: real, cgZ: real,
                         scanInt: ScanInt, scanReal: ScanReal)
      requires Valid()
      modifies this`icao, this`useEnginesOn, this`dontConnectJetway, this`doorInfo, this`nDoor
      ensures Valid()
      ensures icao == IcaoRemapLegacy(sane)
      ensures useEnginesOn == Listed(sane, engineFile) && dontConnectJetway == Listed(sane, noJetwayFile)
      ensures doorInfo == [door1, Door2Of(sane, old(doorInfo[1]), doorMap, acfFile, cgY, cgZ, scanInt, scanReal).1, old(doorInfo[2])]
      ensures nDoor == Door2Of(sane, old(doorInfo[1]), doorMap, acfFile, cgY, cgZ, scanInt, scanReal).0
    {
      useEnginesOn := FindIcaoInFile(sane, engineFile);
      dontConnectJetway := FindIcaoInFile(sane, noJetwayFile);
      var n, d2 := LoadDoor2(sane, doorInfo[1], doorMap, acfFile, cgY, cgZ, scanInt, scanReal);
      doorInfo := [door1, d2, doorInfo[2]];
      nDoor := n;
      icao := IcaoRemapLegacy(sane);
    }

    /**
     * `livery_loaded`: for an A321 whose `livery.tlscfg` opens, the first
     * exit configuration line decides; anything but CLASSIC means one door.
     */
    method LiveryLoaded(tlscfg: Option<seq<string>>)
      modifies this`nDoor
      ensures icao == "A321" && tlscfg.Some? && OneDoorLivery(tlscfg.value) ==> nDoor == 1
      ensures !(icao == "A321" && tlscfg.Some? && OneDoorLivery(tlscfg.value)) ==> nDoor == old(nDoor)
    {
      if icao != "A321" {
        return;
      }
      if tlscfg.Some? {
        var oneDoor := ScanLivery(tlscfg.value);
        if oneDoor {
          nDoor := 1;
        }
      }
    }

    /**
     * `update`: the 10 s on-ground hysteresis, then the beacon: the engine
     * state for aircraft listed in the engine file, else the 3 s filter.
     */
    method Update(now: real, gearForce: real, engRunning: seq<int>, beacon: int)
      modifies this`onGround, this`onGroundTs, this`beaconOn, this`beaconOnPending, this`beaconOnTs, this`beaconOffTs
      ensures (onGround, onGroundTs) == OnGroundStep(old(onGround), old(onGroundTs), gearForce != 0.0, now)
      ensures useEnginesOn ==> BeaconFilter() == old(BeaconFilter()).(on := exists i :: 0 <= i < |engRunning| && engRunning[i] != 0)
      ensures !useEnginesOn ==> BeaconFilter() == BeaconStep(old(BeaconFilter()), beacon != 0, now)
    {
      ghost var b0 := BeaconFilter();
      var og := gearForce != 0.0;
      if og != onGround && now > onGroundTs + 10.0 {
        onGround := og;
        onGroundTs := now;
      }
      assert BeaconFilter() == b0;
      if useEnginesOn {
        beaconOn := EnginesOn(engRunning);
      } else {
        SampleBeacon(beacon != 0, now);
      }
    }

    /** The beacon part of `update`: one sample of the switch through the 3 s filter. */
    method SampleBeacon(beacon: bool, now: real)
      modifies this`beaconOn, this`beaconOnPending, this`beaconOnTs, this`beaconOffTs
      ensures BeaconFilter() == BeaconStep(old(BeaconFilter()), beacon, now)
    {
      if beacon {
        if !beaconOnPending {
          beaconOnTs := now;
          beaconOnPending := true;
        } else if now > beaconOnTs + 3.0 {
          beaconOn := true;
        }
      } else {
        if beaconOnPending {
          beaconOffTs := now;
          beaconOnPending := false;
        } else if now > beaconOffTs + 3.0 {
          beaconOn := false;
        }
      }
    }

    /** `memorize_parked_pos`: the current position and reference generation. */
    method MemorizeParkedPos(x: real, z: real, refGen: nat)
      modifies this`parkedX, this`parkedZ, this`parkedNgen
      ensures parkedX == x && parkedZ == z && parkedNgen == refGen
      ensures !CheckTeleportation(x, z, refGen)
    {
      parkedX := x;
      parkedZ := z;
      parkedNgen := refGen;
    }

    /** `check_teleportation`: on the ground, a new reference frame or a move of more than 1 m. */
    predicate CheckTeleportation(x: real, z: real, refGen: nat)
      reads this`onGround, this`parkedX, this`parkedZ, this`parkedNgen
    {
      onGround && (parkedNgen != refGen || Abs(parkedX - x) > 1.0 || Abs(parkedZ - z) > 1.0)
    }

    /** `reset_beacon`. */
    method ResetBeacon()
      modifies this`beaconOnPending, this`beaconOnTs, this`beaconOffTs
      ensures BeaconFilter() == BeaconReset(old(BeaconFilter()))
    {
      beaconOnPending := false;
      beaconOffTs, beaconOnTs := -10.0, -10.0;
    }
  }

  /** Both versions detect teleportation by the same rule. */
  lemma TeleportationAgrees(p: LegacyPlane, q: MyPlane, refGen: nat)
    requires p.onGround == q.onGround && p.parkedX == q.parkedX && p.parkedZ == q.parkedZ && p.parkedNgen == q.parkedNgen
    ensures p.CheckTeleportation(q.x, q.z, refGen) == q.CheckTeleportation(refGen)
  {
  }
}
