/**
 * mpadapter.cpp and what the three multiplayer adapters (xPilot, Traffic
 * Global, LiveTraffic) share: the door lookup of a constructed plane, the
 * retry of a plane stuck in CANT_DOCK, the distance filter, the sweep that
 * forgets planes which left the feed, and the loop delay of the adapter's
 * jetway machines.
 *
 * A multiplayer plane is owned by exactly one entry of `mp_planes_` (a
 * `unique_ptr`), so it is modelled as a value in the adapter's map and an
 * update in place is the replacement of that entry.
 */
module MpAdapters {
  import opened Wrappers
  import opened Strings
  import Seasons
  import P = MyPlanes

  /** `MpAdapter::jw_state_machine`'s delay when no plane asks for an earlier call. */
  const KMaxLoopDelay: real := 10.0
  /** Seconds in CANT_DOCK after which a parked multiplayer plane tries again. */
  const KCantDockRetry: real := 60.0

  /** `len2f(dx, dz) <= limit`, with the root replaced by a comparison of squares. */
  predicate Near(dx: real, dz: real, limit: real)
  {
    0.0 <= limit && dx * dx + dz * dz <= limit * limit
  }

  /** A spawn budget that has run below zero counts as spent. */
  function Max0(k: int): nat { if k < 0 then 0 else k }

  /** The door key of door k (1-based) of a CSL model: ICAO followed by the digit. */
  function DoorKey(icao: string, k: nat): (r: string)
    requires 1 <= k <= 3
    ensures |r| == |icao| + 1 && r[..|icao|] == icao && r[|icao|] == DigitChar(k)
  {
    icao + [DigitChar(k)]
  }

  /**
   * The doors of a Traffic Global or LiveTraffic plane: door 1 must be in
   * `csl_door_info_map`, doors 2 and 3 are optional, and door 3 is looked up
   * only when door 2 was found.
   */
  function DoorsOf(doorMap: map<string, Seasons.DoorInfo>, icao: string): (r: Option<seq<Seasons.DoorInfo>>)
    ensures r.None? <==> DoorKey(icao, 1) !in doorMap
    ensures r.Some? ==> 1 <= |r.value| <= 3
    ensures r.Some? ==> forall k :: 0 <= k < |r.value| ==>
      DoorKey(icao, k + 1) in doorMap && r.value[k] == doorMap[DoorKey(icao, k + 1)]
    ensures r.Some? && |r.value| < 3 ==> DoorKey(icao, |r.value| + 1) !in doorMap
  {
    var k1, k2, k3 := DoorKey(icao, 1), DoorKey(icao, 2), DoorKey(icao, 3);
    if k1 !in doorMap then None
    else if k2 !in doorMap then Some([doorMap[k1]])
    else if k3 !in doorMap then Some([doorMap[k1], doorMap[k2]])
    else Some([doorMap[k1], doorMap[k2], doorMap[k3]])
  }

  /** Door 3 without door 2 is never used: the plane then has one door. */
  lemma DoorThreeNeedsTwo(doorMap: map<string, Seasons.DoorInfo>, icao: string)
    requires DoorKey(icao, 1) in doorMap && DoorKey(icao, 2) !in doorMap
    ensures DoorsOf(doorMap, icao) == Some([doorMap[DoorKey(icao, 1)]])
  {
    var r := DoorsOf(doorMap, icao);
    assert |r.value| == 1;
  }

  /**
   * The state after a plane's `update(beacon)`: with the beacon off, a plane
   * that has been in CANT_DOCK for more than 60 s is set back to PARKED so
   * that the jetway machine retries docking; every other state stays.
   */
  function Retried(state: P.PlaneState, beacon: bool, now: real, stateChangeTs: real): P.PlaneState
  {
    if !beacon && state == P.CantDock && now > stateChangeTs + KCantDockRetry then P.Parked else state
  }

  /**
   * The retry changes only CANT_DOCK, only into PARKED, and does so exactly
   * when the beacon is off and the 60 s have passed.
   */
  lemma RetriedOnlyRetries(state: P.PlaneState, beacon: bool, now: real, stateChangeTs: real)
    ensures var r := Retried(state, beacon, now, stateChangeTs);
      && (r != state ==> state == P.CantDock && r == P.Parked)
      && (state == P.CantDock ==> (r == P.Parked <==> !beacon && now > stateChangeTs + KCantDockRetry))
  {
  }

  /** Retrying never leaves DISABLED nor enters it. */
  lemma RetriedKeepsDisabled(state: P.PlaneState, beacon: bool, now: real, ts: real)
    ensures Retried(state, beacon, now, ts) == P.Disabled <==> state == P.Disabled
  {
  }

  /** `m` without the keys outside `keep`. */
  function Restrict<V>(m: map<string, V>, keep: set<string>): (r: map<string, V>)
    ensures r.Keys == m.Keys * keep
    ensures forall k :: k in r ==> r[k] == m[k]
  {
    map k | k in m && k in keep :: m[k]
  }

  /**
   * The sweep at the end of every adapter's `update`: each plane whose key
   * this run did not see is erased, the others are kept as they are.
   */
  method Sweep<V>(planes: map<string, V>, seen: set<string>) returns (r: map<string, V>)
    ensures r == Restrict(planes, seen)
  {
    r := planes;
    var todo := planes.Keys;
    while todo != {}
      invariant todo <= planes.Keys
      invariant forall k :: k in r <==> k in planes && (k in todo || k in seen)
      invariant forall k :: k in r ==> r[k] == planes[k]
      decreases |todo|
    {
      var key :| key in todo;
      if key !in seen {
        r := r - {key};
      }
      todo := todo - {key};
    }
  }

  /**
   * `MpAdapter::jw_state_machine`: every plane's jetway machine runs, and the
   * adapter asks to be called again after the shortest delay any of them
   * asked for, at most 10 s.  `delays` are the planes' answers in the order
   * of the map.
   */
  method JwLoopDelay(delays: seq<real>) returns (d: real)
    ensures d <= KMaxLoopDelay
    ensures forall k :: 0 <= k < |delays| ==> d <= delays[k]
    ensures d == KMaxLoopDelay || d in delays
  {
    d := KMaxLoopDelay;
    var i := 0;
    while i < |delays|
      invariant 0 <= i <= |delays|
      invariant d <= KMaxLoopDelay
      invariant forall k :: 0 <= k < i ==> d <= delays[k]
      invariant d == KMaxLoopDelay || d in delays[..i]
    {
      if delays[i] < d {
        d := delays[i];
      }
      i := i + 1;
    }
    assert delays[..i] == delays;
  }
}
