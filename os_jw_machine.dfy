/**
 * os_jw.cpp: `select_jws` and `jw_state_machine`, the plane's jetway state
 * machine in its global-state form.  The machine keeps its state and the
 * previous cycle's state, three command counters, the selected controllers
 * in the fixed array `active_jw` and the candidate buffer of `OsJw`.
 *
 * One cycle is specified by the pure function `Cycle` over the registers
 * (state, previous state, counters) and what the cycle observes (beacon,
 * ground contact, teleport check, the number of jetways found, the active
 * count at the test, the number of drives that finished); the method
 * `JwMachine.Step` is proved to follow it.
 *
 * The state codes are those of the C enum, so that `state > IDLE` and an
 * out-of-range state (the `default` arm) mean what they mean there.
 */
module OsJwMachine {
  import opened Wrappers
  import opened SamJws
  import opened JwCtrls
  import opened OsJw

  /** The codes of `state_t`. */
  const StDisabled := 0
  const StIdle := 1
  const StParked := 2
  const StSelectJws := 3
  const StCanDock := 4
  const StDocking := 5
  const StDocked := 6
  const StUndocking := 7
  const StCantDock := 8

  /** kMaxDoor: the size of `active_jw`. */
  const KMaxDoor := 3
  /** JW_ANIM_INTERVAL: the delay while an animation runs (every frame). */
  const AnimInterval: real := -1.0
  /** The staggered start between two jetways of one docking or undocking, in seconds. */
  const Stagger: real := 5.0
  /** The slant toward the nose given to the jetway of the first door, in degrees. */
  const FirstDoorSlant: real := 3.0

  // ---------------------------------------------------------------------
  // `select_jws`
  // ---------------------------------------------------------------------

  /** Some candidate fulfils the sam.xml limits (a hard match). */
  predicate HasHard(cs: seq<Candidate>)
  {
    exists i :: 0 <= i < |cs| && !cs[i].soft
  }

  /** Candidate i, extended to its door, would cross the way to park of a candidate after it. */
  predicate Blocked(cs: seq<Candidate>, i: nat)
    requires i < |cs|
  {
    exists j :: i < j < |cs| && CollisionCheck(cs[i].setup, cs[j].setup)
  }

  /** Candidate i may serve a door: it is not a soft match while a hard match exists, and it is not blocked. */
  predicate Usable(cs: seq<Candidate>, hard: bool, i: nat)
    requires i < |cs|
  {
    !(hard && cs[i].soft) && !Blocked(cs, i)
  }

  /** For each candidate, whether it may serve a door. */
  function UsableFlags(cs: seq<Candidate>, hard: bool): (ok: seq<bool>)
    ensures |ok| == |cs|
  {
    seq(|cs|, i requires 0 <= i < |cs| => Usable(cs, hard, i))
  }

  lemma UsableFlagsAt(cs: seq<Candidate>, hard: bool)
    ensures forall i :: 0 <= i < |cs| ==> UsableFlags(cs, hard)[i] == Usable(cs, hard, i)
  {
  }

  /**
   * The positions `select_jws` assigns, from position `from` on, when
   * `limit` doors are still free: the usable ones in candidate order, until
   * the doors run out.
   */
  function Pick(ok: seq<bool>, from: nat, limit: nat): (r: seq<nat>)
    requires from <= |ok|
    decreases |ok| - from
    ensures |r| <= limit && |r| <= |ok| - from
    ensures forall k :: 0 <= k < |r| ==> from <= r[k] < |ok| && ok[r[k]]
    ensures forall k, l :: 0 <= k < l < |r| ==> r[k] < r[l]
  {
    if from == |ok| || limit == 0 then []
    else if ok[from] then [from] + Pick(ok, from + 1, limit - 1)
    else Pick(ok, from + 1, limit)
  }

  /** The candidates `select_jws` assigns to the doors 0, 1, ..., given `nDoor` doors. */
  function Chosen(cs: seq<Candidate>, nDoor: nat): (r: seq<nat>)
    ensures |r| <= nDoor && forall k :: 0 <= k < |r| ==> r[k] < |cs|
    ensures forall k, l :: 0 <= k < l < |r| ==> r[k] < r[l]
  {
    Pick(UsableFlags(cs, HasHard(cs)), 0, nDoor)
  }

  /** Every chosen candidate is usable: no soft match beside a hard one, no collision with a later candidate. */
  lemma ChosenUsable(cs: seq<Candidate>, nDoor: nat)
    ensures forall k :: 0 <= k < |Chosen(cs, nDoor)| ==> Usable(cs, HasHard(cs), Chosen(cs, nDoor)[k])
  {
    UsableFlagsAt(cs, HasHard(cs));
  }

  /**
   * A usable position is passed over only when the doors were all taken by
   * positions before it.
   */
  lemma {:induction false} PickedComplete(ok: seq<bool>, from: nat, limit: nat, i: nat)
    requires from <= i < |ok| && ok[i] && i !in Pick(ok, from, limit)
    ensures |Pick(ok, from, limit)| == limit
    ensures forall k :: 0 <= k < limit ==> Pick(ok, from, limit)[k] < i
    decreases |ok| - from
  {
    if from == |ok| || limit == 0 {
    } else if ok[from] {
      assert from != i;
      PickedComplete(ok, from + 1, limit - 1, i);
    } else {
      PickedComplete(ok, from + 1, limit, i);
    }
  }

  /**
   * `select_jws` passes over a usable candidate only when every door got a
   * candidate before it; with a hard match among the candidates, no soft
   * match is chosen.
   */
  lemma ChosenComplete(cs: seq<Candidate>, nDoor: nat, i: nat)
    requires i < |cs| && Usable(cs, HasHard(cs), i) && i !in Chosen(cs, nDoor)
    ensures |Chosen(cs, nDoor)| == nDoor && forall k :: 0 <= k < nDoor ==> Chosen(cs, nDoor)[k] < i
  {
    UsableFlagsAt(cs, HasHard(cs));
    PickedComplete(UsableFlags(cs, HasHard(cs)), 0, nDoor, i);
  }

  /** With a hard match among the candidates, no soft match is chosen. */
  lemma ChosenHardOnly(cs: seq<Candidate>, nDoor: nat)
    requires HasHard(cs)
    ensures forall k :: 0 <= k < |Chosen(cs, nDoor)| ==> !cs[Chosen(cs, nDoor)[k]].soft
  {
  }

  // ---------------------------------------------------------------------
  // One cycle of `jw_state_machine`
  // ---------------------------------------------------------------------

  /** The registers one cycle reads and writes: the state, the previous state and the three command counters. */
  datatype Regs = Regs(state: int, prev: int, dock: int, undock: int, toggle: int)

  /**
   * What a cycle observes: the plane's beacon and ground contact, the
   * teleport check, the count `find_nearest_jws` returned, `n_active_jw`
   * where the arm tests it, and how many drives reported done.
   */
  datatype Seen = Seen(beaconOn: bool, onGround: bool, teleported: bool, found: nat, nActive: int, nDone: int)

  /** The outcome of a `switch` arm: a new state, or an early return while an animation runs. */
  datatype ArmOut = Go(next: int) | Wait

  /** The state the `switch` starts in: a teleport from beyond IDLE drops to IDLE first. */
  function Entry(s: int, teleported: bool): int
  {
    if s > StIdle && teleported then StIdle else s
  }

  /** The plane is parked: on the ground with the beacon off. */
  predicate Parks(v: Seen)
  {
    v.onGround && !v.beaconOn
  }

  /** The `switch` of `jw_state_machine` as written, starting in state `s`. */
  function Arm(s: int, r: Regs, v: Seen): ArmOut
  {
    if s == StIdle then Go(if Parks(v) then StParked else StIdle)
    else if s == StParked then Go(if v.found > 0 then StSelectJws else StCantDock)
    else if s == StSelectJws then Go(if v.beaconOn then StIdle else if v.nActive != 0 then StCanDock else StSelectJws)
    // the beacon test sets IDLE but does not break: a request overrides it
    else if s == StCanDock then Go(if r.dock == 1 || r.toggle != 0 then StDocking else if v.beaconOn then StIdle else StCanDock)
    else if s == StCantDock then Go(if !v.onGround || v.beaconOn then StIdle else StCantDock)
    else if s == StDocking then (if v.nDone == v.nActive then Go(StDocked) else Wait)
    else if s == StDocked then
      Go(if !v.onGround then StIdle else if r.undock == 1 || v.beaconOn || r.toggle != 0 then StUndocking else StDocked)
    else if s == StUndocking then (if v.nDone == v.nActive then Go(StIdle) else Wait)
    else Go(StDisabled)
  }

  /** The dock counter before the decrement: parking clears stale requests. */
  function DockBase(s: int, r: Regs, v: Seen): int
  {
    if s == StIdle && Parks(v) then 0 else r.dock
  }

  /** The undock counter before the decrement: parking clears it, the beacon in DOCKED requests an undock. */
  function UndockBase(s: int, r: Regs, v: Seen): int
  {
    if s == StIdle && Parks(v) then 0
    else if s == StDocked && v.onGround && v.beaconOn then 1
    else r.undock
  }

  /** The registers after the arm chose a new state: counters down by one, toggle cleared, the entry state remembered. */
  function After(s: int, next: int, r: Regs, v: Seen): Regs
  {
    Regs(next, s, DockBase(s, r, v) - 1, UndockBase(s, r, v) - 1, 0)
  }

  /**
   * One call of `jw_state_machine`: the new registers and the returned
   * delay.  DISABLED returns 2 s and changes nothing; an animation still
   * running returns at once; a transition returns -1 (next frame),
   * otherwise the machine waits 0.5 s.
   */
  function Cycle(r: Regs, v: Seen): (Regs, real)
  {
    if r.state == StDisabled then (r, 2.0)
    else
      var s := Entry(r.state, v.teleported);
      match Arm(s, r, v)
      case Wait => (r.(state := s), AnimInterval)
      case Go(next) => (After(s, next, r, v), if next != s then -1.0 else 0.5)
  }

  /**
   * The registers an arm leaves, `r`, and the tail's rule give the same
   * result as `Cycle`: the cycle's definition is the program's arms
   * followed by its tail.
   */
  lemma CycleOf(r0: Regs, v: Seen, out: ArmOut, r: Regs)
    requires r0.state != StDisabled && out == Arm(Entry(r0.state, v.teleported), r0, v)
    requires r == Regs(Entry(r0.state, v.teleported), r0.prev, DockBase(r.state, r0, v), UndockBase(r.state, r0, v),
                       if r.state == StIdle && Parks(v) then 0 else r0.toggle)
    ensures Cycle(r0, v) == if out.Wait? then (r, AnimInterval)
                            else (Regs(out.next, r.state, r.dock - 1, r.undock - 1, 0), if out.next != r.state then -1.0 else 0.5)
  {
  }

  /** DISABLED is final: the machine stays there and polls every 2 s. */
  lemma CycleDisabled(r: Regs, v: Seen)
    requires r.state == StDisabled
    ensures Cycle(r, v).0 == r && Cycle(r, v).1 == 2.0
  {
  }

  /** An unknown state, not left by a teleport, goes to DISABLED at once. */
  lemma CycleUnknown(r: Regs, v: Seen)
    requires !(StDisabled <= r.state <= StCantDock) && !(r.state > StIdle && v.teleported)
    ensures Cycle(r, v).0.state == StDisabled && Cycle(r, v).1 == -1.0
  {
  }

  /** A cycle that does not wait on an animation clears the toggle and counts the dock request down by one, or to -1 on parking. */
  lemma CycleCountsDown(r: Regs, v: Seen)
    requires r.state != StDisabled && Arm(Entry(r.state, v.teleported), r, v).Go?
    ensures Cycle(r, v).0.toggle == 0
    ensures Cycle(r, v).0.dock == r.dock - 1 || Cycle(r, v).0.dock == -1
    ensures Cycle(r, v).0.prev == Entry(r.state, v.teleported)
  {
  }

  /** A cycle that waits on an animation changes no register but the state a teleport may have reset. */
  lemma CycleWaitKeeps(r: Regs, v: Seen)
    requires r.state != StDisabled && Arm(Entry(r.state, v.teleported), r, v).Wait?
    ensures Cycle(r, v).0 == r && Cycle(r, v).1 == AnimInterval
  {
  }

  /** A state change within the switch is reported with -1, so the caller runs the next cycle at the next frame. */
  lemma CycleTransitionNow(r: Regs, v: Seen)
    requires r.state != StDisabled && Cycle(r, v).0.state != Entry(r.state, v.teleported)
    ensures Cycle(r, v).1 == -1.0
  {
  }

  /** DOCKING is entered only from CAN_DOCK, and only on a ripe dock request or a toggle. */
  lemma DockingOnRequest(r: Regs, v: Seen)
    requires r.state != StDocking && Cycle(r, v).0.state == StDocking
    ensures r.state == StCanDock && !v.teleported && (r.dock == 1 || r.toggle != 0)
  {
  }

  /** PARKED is entered only from IDLE on the ground with the beacon off, and then no stale request survives. */
  lemma ParkedFromIdle(r: Regs, v: Seen)
    requires r.state != StParked && Cycle(r, v).0.state == StParked
    ensures Entry(r.state, v.teleported) == StIdle && Parks(v)
    ensures Cycle(r, v).0.dock == -1 && Cycle(r, v).0.undock == -1 && Cycle(r, v).0.toggle == 0
  {
  }

  /**
   * A dock command sets its counter to 2: in CAN_DOCK the first cycle only
   * counts it down to 1 and the second one starts docking.
   */
  lemma DockCommandTwoCycles(r: Regs, v: Seen)
    requires r.state == StCanDock && r.dock == 2 && r.toggle == 0
    requires !v.beaconOn && !v.teleported
    ensures Cycle(r, v).0.state == StCanDock && Cycle(r, v).0.dock == 1
    ensures Cycle(Cycle(r, v).0, v).0.state == StDocking
  {
  }

  /** As written: in CAN_DOCK, a beacon switched on is overridden by a dock request of the same cycle. */
  lemma CanDockBeaconOverridden(r: Regs, v: Seen)
    requires r.state == StCanDock && r.dock == 1 && v.beaconOn && !v.teleported
    ensures Cycle(r, v).0.state == StDocking
  {
  }

  /** The CAN_DOCK arm as evidently intended: the beacon test ends the arm, as it does in SELECT_JWS. */
  function ArmFixed(s: int, r: Regs, v: Seen): ArmOut
  {
    if s == StCanDock then Go(if v.beaconOn then StIdle else if r.dock == 1 || r.toggle != 0 then StDocking else StCanDock)
    else Arm(s, r, v)
  }

  /** `Cycle` over the corrected arm. */
  function CycleFixed(r: Regs, v: Seen): (Regs, real)
  {
    if r.state == StDisabled then (r, 2.0)
    else
      var s := Entry(r.state, v.teleported);
      match ArmFixed(s, r, v)
      case Wait => (r.(state := s), AnimInterval)
      case Go(next) => (After(s, next, r, v), if next != s then -1.0 else 0.5)
  }

  /** With the corrected arm a plane whose beacon is on never starts docking, and CAN_DOCK falls back to IDLE. */
  lemma FixedBeaconWins(r: Regs, v: Seen)
    requires r.state != StDisabled && v.beaconOn
    ensures CycleFixed(r, v).0.state != StDocking || r.state == StDocking
    ensures r.state == StCanDock && !v.teleported ==> CycleFixed(r, v).0.state == StIdle
  {
  }

  /** The two versions differ only in CAN_DOCK with the beacon on and a request pending. */
  lemma FixedAgreesElsewhere(r: Regs, v: Seen)
    requires !(Entry(r.state, v.teleported) == StCanDock && v.beaconOn && (r.dock == 1 || r.toggle != 0))
    ensures CycleFixed(r, v) == Cycle(r, v)
  {
  }

  // ---------------------------------------------------------------------
  // The machine's global state
  // ---------------------------------------------------------------------

  /**
   * The state of the `select_jws` loop over the usable flags `ok`: the
   * positions picked so far, followed by what `Pick` takes from `iJw` on
   * with the doors left, are what `Pick` takes overall.
   */
  predicate Progress(ok: seq<bool>, nDoor: nat, picked: seq<nat>, iJw: nat, iDoor: nat)
  {
    iJw <= |ok| && iDoor <= nDoor && |picked| == iDoor
    && Pick(ok, 0, nDoor) == picked + Pick(ok, iJw, nDoor - iDoor)
    && (forall k :: 0 <= k < iDoor ==> picked[k] < iJw)
  }

  lemma ProgressStart(ok: seq<bool>, nDoor: nat)
    ensures Progress(ok, nDoor, [], 0, 0)
  {
    assert [] + Pick(ok, 0, nDoor) == Pick(ok, 0, nDoor);
  }

  /** One step of the loop: a usable position is picked, any other one passed over. */
  lemma ProgressStep(ok: seq<bool>, nDoor: nat, picked: seq<nat>, iJw: nat, iDoor: nat)
    requires Progress(ok, nDoor, picked, iJw, iDoor) && iJw < |ok| && iDoor < nDoor
    ensures ok[iJw] ==> Progress(ok, nDoor, picked + [iJw], iJw + 1, iDoor + 1)
    ensures !ok[iJw] ==> Progress(ok, nDoor, picked, iJw + 1, iDoor)
  {
    if ok[iJw] {
      var rest := Pick(ok, iJw + 1, nDoor - iDoor - 1);
      assert Pick(ok, iJw, nDoor - iDoor) == [iJw] + rest;
      assert picked + ([iJw] + rest) == (picked + [iJw]) + rest;
    }
  }

  /** When the candidates or the doors run out, the loop picked what `Pick` takes. */
  lemma ProgressDone(ok: seq<bool>, nDoor: nat, picked: seq<nat>, iJw: nat, iDoor: nat)
    requires Progress(ok, nDoor, picked, iJw, iDoor) && (iJw == |ok| || iDoor == nDoor)
    ensures picked == Pick(ok, 0, nDoor)
  {
    assert Pick(ok, iJw, nDoor - iDoor) == [];
    assert picked + [] == picked;
  }

  /** The number of true entries. */
  function CountTrue(b: seq<bool>): (n: nat)
    ensures n <= |b|
  {
    if b == [] then 0 else CountTrue(b[..|b| - 1]) + (if b[|b| - 1] then 1 else 0)
  }

  /**
   * When only the first `n` entries can be true, exactly `n` are true if and
   * only if all of those are: the count of finished drives reaches
   * `n_active_jw` only when every active jetway has finished.
   */
  lemma {:induction false} CountAll(b: seq<bool>, n: nat)
    requires n <= |b| && forall k :: n <= k < |b| ==> !b[k]
    ensures CountTrue(b) == n <==> forall k :: 0 <= k < n ==> b[k]
  {
    if |b| == 0 {
    } else if n == |b| {
      CountAll(b[..|b| - 1], n - 1);
      if !b[|b| - 1] {
        assert CountTrue(b) < n;
      }
    } else {
      assert !b[|b| - 1];
      CountAll(b[..|b| - 1], n);
    }
  }

  /** In a buffer of distinct jetways, no candidate before position `i` has the jetway of candidate `i`. */
  lemma JwsBefore(cs: seq<Candidate>, i: nat)
    requires NoDup(JwsOf(cs)) && i < |cs|
    ensures forall k :: 0 <= k < i ==> cs[k].jw != cs[i].jw
  {
    forall k | 0 <= k < i
      ensures cs[k].jw != cs[i].jw
    {
      NoDupDistinct(JwsOf(cs), k, i);
    }
  }

  /** No two slots share a controller or a jetway. */
  predicate DistinctSlots(sl: seq<Option<JwCtrl>>)
  {
    forall i, k :: 0 <= i < k < |sl| && sl[i].Some? && sl[k].Some? ==>
      sl[i].value != sl[k].value && sl[i].value.jw != sl[k].value.jw
  }

  /**
   * Every active jetway has arrived: the first `n` slots, all among the
   * first `nDoor` that the drives visit, hold controllers in state `s`.
   */
  predicate Arrived(sl: seq<Option<JwCtrl>>, n: int, nDoor: nat, s: JwCtrlState)
    reads (set k | 0 <= k < |sl| && sl[k].Some? :: sl[k].value)`state
  {
    0 <= n <= nDoor <= |sl| && forall k :: 0 <= k < n ==> sl[k].Some? && sl[k].value.state == s
  }

  /**
   * What the DOCKING and UNDOCKING arms of a cycle saw that started with
   * the registers `r0`, `n0` active jetways in the slots `sl` and `nDoor`
   * doors: the active count, and an arm that finishes exactly when every
   * active jetway has docked, or parked.
   */
  predicate Witnessed(r0: Regs, v: Seen, n0: int, sl: seq<Option<JwCtrl>>, nDoor: nat)
    reads (set k | 0 <= k < |sl| && sl[k].Some? :: sl[k].value)`state
  {
    var s := Entry(r0.state, v.teleported);
    (s == StDocking ==> v.nActive == n0 && (Arm(s, r0, v).Go? <==> Arrived(sl, n0, nDoor, Docked)))
    && (s == StUndocking ==> v.nActive == n0 && (Arm(s, r0, v).Go? <==> Arrived(sl, n0, nDoor, Parked)))
  }

  /** Every jetway of `js` is reset. */
  predicate AllReset(js: seq<SamJw>, tanDeg: real -> real)
    reads set j | j in js
  {
    forall j :: j in js ==> j.IsReset(tanDeg)
  }

  /** The controller is a fresh copy of the candidate, parked. */
  predicate CopyOf(c: JwCtrl, cand: Candidate)
    reads c
  {
    c.jw == cand.jw && c.HasSetup(cand.setup) && c.softMatch == cand.soft && c.state == Parked
  }

  /** The controller set out toward its alignment point at `start`. */
  predicate Started(c: JwCtrl, start: real)
    reads c`state, c`startTs, c`lastStepTs, c`timeout, c.jw`warnlight
  {
    c.state == ToAp && c.startTs == start && c.lastStepTs == start && c.timeout == start + KAnimTimeout
    && c.jw.warnlight == 1.0
  }

  /**
   * `jw_state_machine`'s globals: the state and the previous cycle's entry
   * state, the command counters, `active_jw` with `n_active_jw`, the
   * candidate buffer `nearest_jw`, the plane's pose memorised on parking,
   * the auto-select setting and the UI lock.
   */
  class JwMachine {
    var state: int
    var prevState: int
    var dockRequested: int
    var undockRequested: int
    var toggleRequested: int
    const active: array<Option<JwCtrl>>
    var nActiveJw: int
    const buf: NearestBuf
    var parked: PlanePose
    var autoSelect: bool
    var uiUnlocked: bool

    /** The registers `Cycle` speaks of. */
    function Registers(): Regs
      reads this`state, this`prevState, this`dockRequested, this`undockRequested, this`toggleRequested
    {
      Regs(state, prevState, dockRequested, undockRequested, toggleRequested)
    }

    /** The controllers in use. */
    function Ctrls(): set<JwCtrl>
      reads active
    {
      set k | 0 <= k < active.Length && active[k].Some? :: active[k].value
    }

    /** The jetways the controllers in use drive. */
    function ActiveJws(): set<SamJw>
      reads active
    {
      set c | c in Ctrls() :: c.jw
    }

    /** The jetways the candidate buffer holds. */
    function HeldJws(): set<SamJw>
      requires buf.Valid()
      reads buf, buf.slots
    {
      set c | c in buf.Held() :: c.jw
    }

    /** `active_jw` holds a controller exactly in its first `n_active_jw` slots. */
    predicate Packed()
      reads this`nActiveJw, active
    {
      active.Length == KMaxDoor && 0 <= nActiveJw <= KMaxDoor
      && forall k :: 0 <= k < KMaxDoor ==> (active[k].Some? <==> k < nActiveJw)
    }

    /** No two slots share a controller or a jetway. */
    predicate Distinct()
      reads active
    {
      DistinctSlots(active[..])
    }

    /** The data invariant: packed, distinct slots and a buffer of distinct jetways. */
    predicate Sound()
      reads this`nActiveJw, active, buf, buf.slots
    {
      Packed() && Distinct() && buf.Valid() && NoDup(JwsOf(buf.Held()))
    }

    /**
     * What the states promise: no active jetway before a selection (PARKED, SELECT_JWS, CANT_DOCK, and IDLE after a cycle in
     * IDLE); a cycle that started in IDLE went to IDLE or PARKED.
     */
    predicate Staged()
      reads this`state, this`prevState, this`nActiveJw
    {
      (state == StParked || state == StSelectJws || state == StCantDock || (state == StIdle && prevState == StIdle) ==>
            nActiveJw == 0)
      && (prevState == StIdle ==> state == StIdle || state == StParked)
    }

    predicate Valid()
      reads this`state, this`prevState, this`nActiveJw, active, buf, buf.slots
    {
      Sound() && Staged()
    }

    /** The zero-initialised globals: IDLE, coming from DISABLED, so the first cycle clears the selection. */
    constructor ()
      ensures Valid() && fresh(active) && fresh(buf) && fresh(buf.slots)
      ensures Registers() == Regs(StIdle, StDisabled, 0, 0, 0) && nActiveJw == 0 && buf.n == 0 && autoSelect && !uiUnlocked
    {
      state, prevState := StIdle, StDisabled;
      dockRequested, undockRequested, toggleRequested := 0, 0, 0;
      active := new Option<JwCtrl>[KMaxDoor](_ => None);
      nActiveJw := 0;
      buf := new NearestBuf();
      parked := PlanePose(0.0, 0.0, 0.0, 0.0);
      autoSelect := true;
      uiUnlocked := false;
    }

    /**
     * The slots after `select_jws` copied the candidates at the positions
     * `picked` into the first ones: copies of distinct jetways in distinct
     * controllers, and nothing after them.
     */
    predicate Placed(cs: seq<Candidate>, picked: seq<nat>)
      reads active, Ctrls()
    {
      active.Length == KMaxDoor && |picked| <= KMaxDoor
      && (forall k :: 0 <= k < |picked| ==> picked[k] < |cs| && active[k].Some? && CopyOf(active[k].value, cs[picked[k]]))
      && (forall k :: |picked| <= k < KMaxDoor ==> active[k] == None)
      && (forall i, k :: 0 <= i < k < |picked| ==> active[i].value != active[k].value && active[i].value.jw != active[k].value.jw)
    }

    /** `active_jw[i_door] = nearest_jw[i_jw]`: the next slot gets a copy of candidate `iJw`. */
    method Place(cs: seq<Candidate>, iJw: nat, iDoor: nat, ghost picked: seq<nat>)
      requires Placed(cs, picked) && iDoor == |picked| < KMaxDoor && iJw < |cs| && NoDup(JwsOf(cs))
      requires forall k :: 0 <= k < |picked| ==> picked[k] < iJw
      modifies active
      ensures Placed(cs, picked + [iJw])
      ensures forall k :: 0 <= k < |picked| ==> active[k] == old(active[k])
      ensures forall k :: 0 <= k < KMaxDoor && k != iDoor ==> active[k] == old(active[k])
      ensures fresh(active[iDoor].value)
    {
      JwsBefore(cs, iJw);
      var c := new JwCtrl.FromCandidate(cs[iJw], iDoor);
      active[iDoor] := Some(c);
    }

    /** The `have_hard_match` loop of `select_jws`. */
    static method HardMatch(cs: seq<Candidate>) returns (hard: bool)
      ensures hard == HasHard(cs)
    {
      hard := false;
      for i := 0 to |cs|
        invariant hard <==> exists k :: 0 <= k < i && !cs[k].soft
      {
        if !cs[i].soft {
          hard := true;
          return;
        }
      }
    }

    /**
     * The `while` loop of `select_jws` over the candidates `cs`: the slots
     * 0, 1, ... get copies of the candidates `Chosen` picks.
     */
    method AssignDoors(cs: seq<Candidate>, hard: bool, nDoor: nat) returns (iDoor: nat, ghost picked: seq<nat>)
      requires hard == HasHard(cs) && NoDup(JwsOf(cs)) && 0 < nDoor <= KMaxDoor && Placed(cs, [])
      modifies active
      ensures picked == Chosen(cs, nDoor) && iDoor == |picked| && Placed(cs, picked)
      ensures forall k :: 0 <= k < KMaxDoor && active[k].Some? ==> fresh(active[k].value)
    {
      ghost var ok := UsableFlags(cs, hard);
      picked := [];
      ProgressStart(ok, nDoor);
      iDoor := 0;
      var iJw := 0;
      while iJw < |cs| && iDoor < nDoor
        invariant Progress(ok, nDoor, picked, iJw, iDoor)
        invariant Placed(cs, picked)
        invariant forall k :: 0 <= k < KMaxDoor && active[k].Some? ==> fresh(active[k].value)
        decreases |cs| - iJw
      {
        iDoor, picked := AssignAt(cs, hard, nDoor, ok, iJw, iDoor, picked);
        iJw := iJw + 1;
      }
      ProgressDone(ok, nDoor, picked, iJw, iDoor);
    }

    /** One pass of the loop: a usable candidate `iJw` goes to slot `iDoor`, the next slot. */
    method AssignAt(cs: seq<Candidate>, hard: bool, nDoor: nat, ghost ok: seq<bool>, iJw: nat, iDoor: nat,
                    ghost picked: seq<nat>) returns (nextDoor: nat, ghost nextPicked: seq<nat>)
      requires ok == UsableFlags(cs, hard) && NoDup(JwsOf(cs)) && nDoor <= KMaxDoor
      requires Progress(ok, nDoor, picked, iJw, iDoor) && iJw < |cs| && iDoor < nDoor && Placed(cs, picked)
      modifies active
      ensures Progress(ok, nDoor, nextPicked, iJw + 1, nextDoor) && Placed(cs, nextPicked)
      ensures forall k :: 0 <= k < KMaxDoor && active[k].Some? ==> active[k] == old(active[k]) || fresh(active[k].value)
    {
      var take := TakeAt(cs, hard, iJw);
      ProgressStep(ok, nDoor, picked, iJw, iDoor);
      nextDoor, nextPicked := iDoor, picked;
      if take {
        Place(cs, iJw, iDoor, picked);
        nextDoor, nextPicked := iDoor + 1, picked + [iJw];
      }
    }

    /** Whether `select_jws` takes candidate `i`: not a soft match beside a hard one, and not blocked. */
    static method TakeAt(cs: seq<Candidate>, hard: bool, i: nat) returns (take: bool)
      requires i < |cs|
      ensures take == UsableFlags(cs, hard)[i]
    {
      UsableFlagsAt(cs, hard);
      take := !(hard && cs[i].soft);
      if take {
        var blocked := CollidesLater(cs, i);
        take := !blocked;
      }
    }

    /** The collision loop of `select_jws`: some later candidate collides with candidate `i`. */
    static method CollidesLater(cs: seq<Candidate>, i: nat) returns (blocked: bool)
      requires i < |cs|
      ensures blocked == Blocked(cs, i)
    {
      blocked := false;
      for j := i + 1 to |cs|
        invariant !exists l :: i < l < j && CollisionCheck(cs[i].setup, cs[l].setup)
      {
        if CollisionCheck(cs[i].setup, cs[j].setup) {
          return true;
        }
      }
    }

    /**
     * `select_jws`: with no door nothing changes; otherwise the candidates
     * `Chosen` picks become the active controllers of the doors 0, 1, ...,
     * in that order, and `n_active_jw` is their number.
     */
    method SelectJws(nDoor: nat)
      requires Sound() && nActiveJw == 0 && nDoor <= KMaxDoor
      modifies this`nActiveJw, active
      ensures buf.Valid() && buf.Held() == old(buf.Held())
      ensures nActiveJw == |Chosen(buf.Held(), nDoor)|
      ensures Placed(buf.Held(), Chosen(buf.Held(), nDoor))
      ensures Sound()
      ensures forall k :: 0 <= k < KMaxDoor && active[k].Some? ==> fresh(active[k].value)
    {
      if nDoor == 0 {
        assert Chosen(buf.Held(), 0) == [];
        return;
      }
      var cs := buf.Held();
      var hard := HardMatch(cs);
      assert forall k :: 0 <= k < KMaxDoor ==> active[k] == None;
      var iDoor, picked := AssignDoors(cs, hard, nDoor);
      assert buf.Held() == cs;
      nActiveJw := iDoor;
      PlacedSlots(cs, picked);
    }

    /** Slots filled by `Placed` are packed and distinct. */
    lemma PlacedSlots(cs: seq<Candidate>, picked: seq<nat>)
      requires Placed(cs, picked)
      ensures Distinct()
      ensures forall k :: 0 <= k < KMaxDoor ==> (active[k].Some? <==> k < |picked|)
    {
    }
  
    /**
     * The set-up loop of SELECT_JWS: the controller of each door is set up
     * for that door from the pose memorised on parking; the target rot2 of
     * door 0 is slanted toward the nose.
     */
    method SetupDoors(doors: seq<DoorInfo>, m: Math) returns (ghost poses: seq<JwPose>, ghost want: seq<DoorSetup>)
      requires Sound() && |doors| <= KMaxDoor
      modifies Ctrls()`x, Ctrls()`z, Ctrls()`psi, Ctrls()`y, Ctrls()`cabinX, Ctrls()`cabinZ, Ctrls()`doorX
      modifies Ctrls()`doorRot1, Ctrls()`doorRot2, Ctrls()`doorRot3, Ctrls()`doorExtent, Ctrls()`parkedX
      modifies Ctrls()`parkedZ, Ctrls()`apX, ActiveJws()`wheels
      ensures Sound() && |poses| == |doors| && |want| == |doors|
      ensures forall k {:trigger SetupFrom(poses[k], parked, doors[k], m)} :: 0 <= k < |doors| ==>
        want[k] == Slanted(SetupFrom(poses[k], parked, doors[k], m), k)
      ensures forall k :: 0 <= k < |doors| && active[k].Some? ==> SlotDone(active[k].value, poses[k], want[k], m)
    {
      ghost var sl := active[..];
      assert DistinctSlots(sl);
      ghost var none: JwPose :| true;
      ghost var plane := parked;
      ghost var jws := set k | 0 <= k < |sl| && sl[k].Some? :: sl[k].value.jw;
      poses := seq(|doors|, k requires 0 <= k < |doors| reads jws =>
        if sl[k].Some? then PoseOf(sl[k].value.jw) else none);
      want := seq(|doors|, k requires 0 <= k < |doors| => Slanted(SetupFrom(poses[k], plane, doors[k], m), k));
      SlotsInCtrls();
      SetupLoop(sl, doors, poses, want, Ctrls(), ActiveJws(), m);
    }

    /** Every controller in a slot is among `Ctrls()`, and its jetway among `ActiveJws()`. */
    lemma SlotsInCtrls()
      ensures forall k :: 0 <= k < active.Length && active[k].Some? ==>
        active[k].value in Ctrls() && active[k].value.jw in ActiveJws()
    {
    }

    /** The loop of `SetupDoors` over a snapshot `sl` of the slots, whose jetways stand at `poses`. */
    method SetupLoop(ghost sl: seq<Option<JwCtrl>>, doors: seq<DoorInfo>, ghost poses: seq<JwPose>,
                     ghost want: seq<DoorSetup>, ghost cs: set<JwCtrl>, ghost js: set<SamJw>, m: Math)
      requires active.Length == KMaxDoor && sl == active[..] && DistinctSlots(sl) && |doors| <= KMaxDoor
      requires |poses| == |doors| && |want| == |doors|
      requires forall k :: 0 <= k < |sl| && sl[k].Some? ==> sl[k].value in cs && sl[k].value.jw in js
      requires forall k :: 0 <= k < |doors| && sl[k].Some? ==> PoseOf(sl[k].value.jw) == poses[k]
      requires forall k {:trigger SetupFrom(poses[k], parked, doors[k], m)} :: 0 <= k < |doors| ==>
        want[k] == Slanted(SetupFrom(poses[k], parked, doors[k], m), k)
      modifies cs`x, cs`z, cs`psi, cs`y, cs`cabinX, cs`cabinZ, cs`doorX, cs`doorRot1, cs`doorRot2, cs`doorRot3
      modifies cs`doorExtent, cs`parkedX, cs`parkedZ, cs`apX, js`wheels
      ensures unchanged(this, active, buf, buf.slots)
      ensures forall k :: 0 <= k < |doors| && sl[k].Some? ==> SlotDone(sl[k].value, poses[k], want[k], m)
    {
      for i := 0 to |doors|
        invariant forall k :: i <= k < |doors| && sl[k].Some? ==> PoseOf(sl[k].value.jw) == poses[k]
        invariant forall k :: 0 <= k < i && sl[k].Some? ==> SlotDone(sl[k].value, poses[k], want[k], m)
      {
        if active[i].Some? {
          SetupAt(i, sl, doors, poses, want, m);
        }
      }
    }

    /** One turn of the loop of `SetupDoors`, on the controller in slot `i`. */
    method SetupAt(i: nat, ghost sl: seq<Option<JwCtrl>>, doors: seq<DoorInfo>, ghost poses: seq<JwPose>,
                   ghost want: seq<DoorSetup>, m: Math)
      requires active.Length == KMaxDoor && sl == active[..] && i < |doors| <= KMaxDoor && sl[i].Some?
      requires |poses| == |doors| && |want| == |doors|
      requires DistinctSlots(sl)
      requires PoseOf(sl[i].value.jw) == poses[i] && want[i] == Slanted(SetupFrom(poses[i], parked, doors[i], m), i)
      modifies sl[i].value`x, sl[i].value`z, sl[i].value`psi, sl[i].value`y, sl[i].value`cabinX
      modifies sl[i].value`cabinZ, sl[i].value`doorX, sl[i].value`doorRot1, sl[i].value`doorRot2
      modifies sl[i].value`doorRot3, sl[i].value`doorExtent, sl[i].value`parkedX, sl[i].value`parkedZ
      modifies sl[i].value`apX, sl[i].value.jw`wheels
      ensures SlotDone(sl[i].value, poses[i], want[i], m)
      ensures forall k :: 0 <= k < |sl| && k != i && sl[k].Some? ==> unchanged(sl[k].value, sl[k].value.jw)
    {
      var c := active[i].value;
      var s := Slanted(SetupFor(c.jw, parked, doors[i], m), i);
      assert s == want[i];
      SetupSlot(c, s, m);
    }

    /**
     * The start of docking in CAN_DOCK: the controllers of the first
     * `nDoor` slots set out toward their alignment points, staggered 5 s
     * apart from the lowest slot up.
     */
    method StartDocking(now: real, nDoor: nat)
      requires Sound() && nDoor <= KMaxDoor
      modifies Ctrls()`state, Ctrls()`startTs, Ctrls()`lastStepTs, Ctrls()`timeout, ActiveJws()`warnlight
      ensures forall k :: 0 <= k < nDoor && active[k].Some? ==> Started(active[k].value, now + k as real * Stagger)
    {
      ghost var sl := active[..];
      assert DistinctSlots(sl);
      SlotsInCtrls();
      ghost var starts := seq(nDoor, k => now + k as real * Stagger);
      var activeDoor := 0;
      for i := 0 to nDoor
        invariant activeDoor == (if i < nActiveJw then i else nActiveJw)
        invariant forall k :: 0 <= k < i && sl[k].Some? ==> Started(sl[k].value, starts[k])
      {
        if active[i].Some? {
          assert active[i] == sl[i];
          StartSlot(active[i].value, sl, i, starts, now + activeDoor as real * Stagger);
          activeDoor := activeDoor + 1;
        }
      }
    }

    /**
     * The start of undocking in DOCKED: the controllers of the first
     * `nDoor` slots set out toward their alignment points, staggered 5 s
     * apart from the highest slot down.
     */
    method StartUndocking(now: real, nDoor: nat)
      requires Sound() && nDoor <= KMaxDoor
      modifies Ctrls()`state, Ctrls()`startTs, Ctrls()`lastStepTs, Ctrls()`timeout, ActiveJws()`warnlight
      ensures forall k :: 0 <= k < nDoor && active[k].Some? ==>
        Started(active[k].value, now + (nDoor - 1 - k) as real * Stagger)
    {
      ghost var sl := active[..];
      assert DistinctSlots(sl);
      SlotsInCtrls();
      ghost var starts := seq(nDoor, k => now + (nDoor - 1 - k) as real * Stagger);
      var activeDoor: int := nDoor;
      for i := 0 to nDoor
        invariant activeDoor == nDoor - (if i < nActiveJw then i else nActiveJw)
        invariant forall k :: 0 <= k < i && sl[k].Some? ==> Started(sl[k].value, starts[k])
      {
        if active[i].Some? {
          assert active[i] == sl[i];
          activeDoor := activeDoor - 1;
          StartSlot(active[i].value, sl, i, starts, now + activeDoor as real * Stagger);
        }
      }
    }

    /**
     * The DOCKING loop: `dock_drive` on the controllers of the first
     * `nDoor` slots; `nDone` counts those that report done, which are
     * exactly the docked ones.
     */
    method DriveDocking(now: real, nDoor: nat, m: Math) returns (nDone: nat, ghost done: seq<bool>)
      requires Sound() && nDoor <= KMaxDoor
      modifies Ctrls()`state, Ctrls()`lastStepTs, Ctrls()`cabinX, Ctrls()`cabinZ, Ctrls()`wbRot, Ctrls()`waitWbRot
      modifies ActiveJws()`rotate1, ActiveJws()`rotate2, ActiveJws()`rotate3, ActiveJws()`extent, ActiveJws()`wheels
      modifies ActiveJws()`wheelrotatec, ActiveJws()`wheelrotatel, ActiveJws()`wheelrotater, ActiveJws()`warnlight
      ensures |done| == nDoor && nDone == CountTrue(done)
      ensures forall k :: 0 <= k < nDoor ==> (done[k] <==> active[k].Some? && active[k].value.state == Docked)
    {
      ghost var sl := active[..];
      assert DistinctSlots(sl);
      SlotsInCtrls();
      nDone := 0;
      done := [];
      for i := 0 to nDoor
        invariant |done| == i && nDone == CountTrue(done)
        invariant forall k :: 0 <= k < i ==> (done[k] <==> sl[k].Some? && sl[k].value.state == Docked)
      {
        var d := false;
        if active[i].Some? {
          assert active[i] == sl[i];
          d := DockSlot(active[i].value, sl, i, done, now, m);
          if d {
            nDone := nDone + 1;
          }
        }
        assert (done + [d])[..i] == done;
        done := done + [d];
      }
    }

    /**
     * The UNDOCKING loop: `undock_drive` on the controllers of the first
     * `nDoor` slots; `nDone` counts those that report done, which are
     * exactly the parked ones.
     */
    method DriveUndocking(now: real, nDoor: nat, m: Math) returns (nDone: nat, ghost done: seq<bool>)
      requires Sound() && nDoor <= KMaxDoor
      modifies Ctrls()`state, Ctrls()`lastStepTs, Ctrls()`cabinX, Ctrls()`cabinZ, Ctrls()`wbRot, Ctrls()`waitWbRot
      modifies ActiveJws()`rotate1, ActiveJws()`rotate2, ActiveJws()`rotate3, ActiveJws()`extent, ActiveJws()`wheels
      modifies ActiveJws()`wheelrotatec, ActiveJws()`wheelrotatel, ActiveJws()`wheelrotater, ActiveJws()`warnlight
      modifies ActiveJws()`locked
      ensures |done| == nDoor && nDone == CountTrue(done)
      ensures forall k :: 0 <= k < nDoor ==> (done[k] <==> active[k].Some? && active[k].value.state == Parked)
    {
      ghost var sl := active[..];
      assert DistinctSlots(sl);
      SlotsInCtrls();
      nDone := 0;
      done := [];
      for i := 0 to nDoor
        invariant |done| == i && nDone == CountTrue(done)
        invariant forall k :: 0 <= k < i ==> (done[k] <==> sl[k].Some? && sl[k].value.state == Parked)
      {
        var d := false;
        if active[i].Some? {
          assert active[i] == sl[i];
          d := UndockSlot(active[i].value, sl, i, done, now, m);
          if d {
            nDone := nDone + 1;
          }
        }
        assert (done + [d])[..i] == done;
        done := done + [d];
      }
    }

    /** `n_active_jw = 0` and the `memset` of `active_jw`. */
    method ClearActive()
      requires active.Length == KMaxDoor
      modifies this`nActiveJw, active
      ensures Packed() && Distinct() && nActiveJw == 0
    {
      forall k | 0 <= k < active.Length {
        active[k] := None;
      }
      nActiveJw := 0;
    }

    /**
     * The IDLE arm: a selection left from another state is dropped, and a
     * plane on the ground with the beacon off is memorised as parked, with
     * stale commands reset.
     */
    method IdleArm(pose: PlanePose, beaconOn: bool, onGround: bool) returns (next: int)
      requires Sound() && state == StIdle && (prevState == StIdle ==> nActiveJw == 0)
      modifies this`nActiveJw, active, buf`n, buf.slots, this`parked
      modifies this`dockRequested, this`undockRequested, this`toggleRequested
      ensures Sound() && nActiveJw == 0
      ensures old(prevState) != StIdle ==> buf.n == 0
      ensures next == (if onGround && !beaconOn then StParked else StIdle)
      ensures onGround && !beaconOn ==> parked == pose && dockRequested == 0 && undockRequested == 0 && toggleRequested == 0
      ensures !(onGround && !beaconOn) ==>
        (parked == old(parked) && dockRequested == old(dockRequested)
         && undockRequested == old(undockRequested) && toggleRequested == old(toggleRequested))
    {
      if prevState != StIdle {
        ClearActive();
        buf.Clear();
      }
      next := StIdle;
      if onGround && !beaconOn {
        parked := pose;
        dockRequested, undockRequested, toggleRequested := 0, 0, 0;
        next := StParked;
      }
    }

    /**
     * The PARKED arm: `find_nearest_jws` fills the candidate buffer; with a
     * candidate the machine goes on to SELECT_JWS, without one to CANT_DOCK.
     */
    method ParkedArm(doors: seq<DoorInfo>, world: JwWorld, latR: real, lonR: real, sceneries: seq<seq<SamJw>>,
                     ghost jws: seq<SamJw>, m: Math) returns (next: int, found: nat)
      requires Sound() && world.Valid() && jws == Flatten(sceneries) + world.zcJws && NoDup(jws)
      modifies buf`n, buf.slots, world, (set j | j in jws)`name
      ensures Sound() && world.Valid()
      ensures found == (if |doors| == 0 then 0 else buf.n)
      ensures next == (if found > 0 then StSelectJws else StCantDock)
    {
      found := FindNearest(buf, world, latR, lonR, doors, parked, sceneries, jws, m);
      next := if found > 0 then StSelectJws else StCantDock;
    }

    /**
     * The SELECT_JWS arm: the beacon sends the machine back to IDLE;
     * otherwise the automatic selection fills the slots, each selected
     * jetway is set up for its door, and the machine can dock.
     */
    method SelectArm(doors: seq<DoorInfo>, beaconOn: bool, m: Math) returns (next: int, nAct: int)
      requires Sound() && state == StSelectJws && nActiveJw == 0 && |doors| <= KMaxDoor
      modifies this`nActiveJw, active, this`uiUnlocked, HeldJws()`wheels
      ensures Sound() && nAct == nActiveJw
      ensures next == (if beaconOn then StIdle else if nAct != 0 then StCanDock else StSelectJws)
      ensures !beaconOn && autoSelect ==> nActiveJw == |Chosen(buf.Held(), |doors|)|
      ensures !beaconOn && !autoSelect ==> nActiveJw == 0 && (uiUnlocked <==> old(uiUnlocked) || prevState != state)
      ensures next == StCanDock ==> forall k :: 0 <= k < |doors| && active[k].Some? ==>
        SetUpFor(active[k].value, parked, doors[k], k, m)
    {
      nAct := nActiveJw;
      if beaconOn {
        return StIdle, nAct;
      }
      if autoSelect {
        SelectAuto(|doors|);
      } else if prevState != state {
        uiUnlocked := true;
      }
      nAct := nActiveJw;
      next := StSelectJws;
      if nActiveJw != 0 {
        SetupSelected(doors, m);
        next := StCanDock;
      }
    }

    /** The automatic selection: the candidates `Chosen` picks fill the slots with new controllers of held jetways. */
    method SelectAuto(nDoor: nat)
      requires Sound() && nActiveJw == 0 && nDoor <= KMaxDoor
      modifies this`nActiveJw, active
      ensures Sound() && buf.Held() == old(buf.Held()) && nActiveJw == |Chosen(buf.Held(), nDoor)|
      ensures ActiveJws() <= HeldJws()
      ensures forall k :: 0 <= k < KMaxDoor && active[k].Some? ==> fresh(active[k].value)
    {
      SelectJws(nDoor);
      ActiveFromHeld(Chosen(buf.Held(), nDoor));
    }

    /** Each selected jetway is set up for the door of its slot. */
    method SetupSelected(doors: seq<DoorInfo>, m: Math)
      requires Sound() && |doors| <= KMaxDoor
      modifies Ctrls()`x, Ctrls()`z, Ctrls()`psi, Ctrls()`y, Ctrls()`cabinX, Ctrls()`cabinZ, Ctrls()`doorX
      modifies Ctrls()`doorRot1, Ctrls()`doorRot2, Ctrls()`doorRot3, Ctrls()`doorExtent, Ctrls()`parkedX
      modifies Ctrls()`parkedZ, Ctrls()`apX, ActiveJws()`wheels
      ensures Sound()
      ensures forall k :: 0 <= k < |doors| && active[k].Some? ==> SetUpFor(active[k].value, parked, doors[k], k, m)
    {
      var poses, want := SetupDoors(doors, m);
      SetUpAll(doors, poses, want, m);
    }

    /** The selected controllers drive jetways of the candidate buffer. */
    lemma ActiveFromHeld(picked: seq<nat>)
      requires buf.Valid() && Placed(buf.Held(), picked)
      ensures ActiveJws() <= HeldJws()
    {
      forall j | j in ActiveJws()
        ensures j in HeldJws()
      {
        var k :| 0 <= k < active.Length && active[k].Some? && active[k].value.jw == j;
        assert k < |picked|;
        assert buf.Held()[picked[k]].jw == j;
      }
    }

    /** `SetupDoors`'s postcondition in terms of the door each slot serves. */
    lemma SetUpAll(doors: seq<DoorInfo>, poses: seq<JwPose>, want: seq<DoorSetup>, m: Math)
      requires active.Length == KMaxDoor && |doors| <= KMaxDoor && |poses| == |doors| && |want| == |doors|
      requires forall k {:trigger SetupFrom(poses[k], parked, doors[k], m)} :: 0 <= k < |doors| ==>
        want[k] == Slanted(SetupFrom(poses[k], parked, doors[k], m), k)
      requires forall k :: 0 <= k < |doors| && active[k].Some? ==> SlotDone(active[k].value, poses[k], want[k], m)
      ensures forall k :: 0 <= k < |doors| && active[k].Some? ==> SetUpFor(active[k].value, parked, doors[k], k, m)
    {
      forall k | 0 <= k < |doors| && active[k].Some?
        ensures SetUpFor(active[k].value, parked, doors[k], k, m)
      {
        assert want[k] == Slanted(SetupFrom(poses[k], parked, doors[k], m), k);
        SetUpFromPose(active[k].value, parked, doors[k], k, m, poses[k], want[k]);
      }
    }

    /**
     * The CAN_DOCK arm as written: the beacon selects IDLE, but a ripe dock
     * request or a toggle then starts docking, staggered by slot.
     */
    method CanDockArm(nDoor: nat, beaconOn: bool, now: real) returns (next: int)
      requires Sound() && nDoor <= KMaxDoor
      modifies Ctrls()`state, Ctrls()`startTs, Ctrls()`lastStepTs, Ctrls()`timeout, ActiveJws()`warnlight
      ensures next == (if dockRequested == 1 || toggleRequested != 0 then StDocking else if beaconOn then StIdle else StCanDock)
      ensures next == StDocking ==>
        forall k :: 0 <= k < nDoor && active[k].Some? ==> Started(active[k].value, now + k as real * Stagger)
    {
      next := StCanDock;
      if beaconOn {
        next := StIdle;
      }
      if dockRequested == 1 || toggleRequested != 0 {
        StartDocking(now, nDoor);
        next := StDocking;
      }
    }

    /**
     * The DOCKED arm: leaving the ground drops to IDLE; the beacon requests an
     * undock; a ripe undock request or a toggle starts undocking, staggered
     * from the highest slot down.
     */
    method DockedArm(nDoor: nat, beaconOn: bool, onGround: bool, now: real) returns (next: int)
      requires Sound() && nDoor <= KMaxDoor
      modifies this`undockRequested
      modifies Ctrls()`state, Ctrls()`startTs, Ctrls()`lastStepTs, Ctrls()`timeout, ActiveJws()`warnlight
      ensures undockRequested == (if onGround && beaconOn then 1 else old(undockRequested))
      ensures next == (if !onGround then StIdle
                       else if undockRequested == 1 || toggleRequested != 0 then StUndocking else StDocked)
      ensures next == StUndocking ==>
        forall k :: 0 <= k < nDoor && active[k].Some? ==> Started(active[k].value, now + (nDoor - 1 - k) as real * Stagger)
    {
      if !onGround {
        return StIdle;
      }
      if beaconOn {
        undockRequested := 1;
      }
      next := StDocked;
      if undockRequested == 1 || toggleRequested != 0 {
        StartUndocking(now, nDoor);
        next := StUndocking;
      }
    }

    /**
     * The DOCKING arm: every selected jetway drives toward its door; once
     * as many report done as are active, the machine is DOCKED, and then
     * every active jetway is.
     */
    method DockingArm(nDoor: nat, now: real, m: Math) returns (out: ArmOut, nDone: nat)
      requires Sound() && nDoor <= KMaxDoor
      modifies Ctrls()`state, Ctrls()`lastStepTs, Ctrls()`cabinX, Ctrls()`cabinZ, Ctrls()`wbRot, Ctrls()`waitWbRot
      modifies ActiveJws()`rotate1, ActiveJws()`rotate2, ActiveJws()`rotate3, ActiveJws()`extent, ActiveJws()`wheels
      modifies ActiveJws()`wheelrotatec, ActiveJws()`wheelrotatel, ActiveJws()`wheelrotater, ActiveJws()`warnlight
      ensures out == (if nDone == nActiveJw then Go(StDocked) else Wait)
      ensures out.Go? <==> Arrived(active[..], nActiveJw, nDoor, Docked)
    {
      ghost var done;
      nDone, done := DriveDocking(now, nDoor, m);
      AllDone(done, nDoor, Docked);
      out := Wait;
      if nDone == nActiveJw {
        out := Go(StDocked);
      }
    }

    /**
     * The UNDOCKING arm: every selected jetway drives back to its parked
     * position; once as many report done as are active, the machine goes
     * to IDLE, and then every active jetway is parked.
     */
    method UndockingArm(nDoor: nat, now: real, m: Math) returns (out: ArmOut, nDone: nat)
      requires Sound() && nDoor <= KMaxDoor
      modifies Ctrls()`state, Ctrls()`lastStepTs, Ctrls()`cabinX, Ctrls()`cabinZ, Ctrls()`wbRot, Ctrls()`waitWbRot
      modifies ActiveJws()`rotate1, ActiveJws()`rotate2, ActiveJws()`rotate3, ActiveJws()`extent, ActiveJws()`wheels
      modifies ActiveJws()`wheelrotatec, ActiveJws()`wheelrotatel, ActiveJws()`wheelrotater, ActiveJws()`warnlight
      modifies ActiveJws()`locked
      ensures out == (if nDone == nActiveJw then Go(StIdle) else Wait)
      ensures out.Go? <==> Arrived(active[..], nActiveJw, nDoor, Parked)
    {
      ghost var done;
      nDone, done := DriveUndocking(now, nDoor, m);
      AllDone(done, nDoor, Parked);
      out := Wait;
      if nDone == nActiveJw {
        out := Go(StIdle);
      }
    }

    /** The count of drives done in state `s` reaches `n_active_jw` exactly when every active jetway has arrived. */
    lemma AllDone(done: seq<bool>, nDoor: nat, s: JwCtrlState)
      requires Packed() && nDoor <= KMaxDoor && |done| == nDoor
      requires forall k :: 0 <= k < nDoor ==> (done[k] <==> active[k].Some? && active[k].value.state == s)
      ensures CountTrue(done) == nActiveJw <==> Arrived(active[..], nActiveJw, nDoor, s)
    {
      if nActiveJw <= nDoor {
        CountAll(done, nActiveJw);
      }
    }

    /**
     * `reset_jetways`: every jetway of every scenery and every zero-config
     * jetway goes back to its initial pose, and the machine to IDLE.
     */
    method ResetJetways(world: JwWorld, sceneries: seq<seq<SamJw>>, m: Math)
      modifies (set j | j in Flatten(sceneries) + world.zcJws)`rotate1, (set j | j in Flatten(sceneries) + world.zcJws)`rotate2
      modifies (set j | j in Flatten(sceneries) + world.zcJws)`rotate3, (set j | j in Flatten(sceneries) + world.zcJws)`extent
      modifies (set j | j in Flatten(sceneries) + world.zcJws)`wheels, (set j | j in Flatten(sceneries) + world.zcJws)`warnlight
      modifies this`state
      ensures state == StIdle
      ensures forall j :: j in Flatten(sceneries) + world.zcJws ==> j.IsReset(m.tanD)
    {
      ResetAll(world, Flatten(sceneries), m.tanD);
      state := StIdle;
    }

    /** The teleport branch of `jw_state_machine`: `reset_jetways`, which leaves the machine in IDLE. */
    method Teleported(world: JwWorld, sceneries: seq<seq<SamJw>>, m: Math)
      modifies (set j | j in Flatten(sceneries) + world.zcJws)`rotate1, (set j | j in Flatten(sceneries) + world.zcJws)`rotate2
      modifies (set j | j in Flatten(sceneries) + world.zcJws)`rotate3, (set j | j in Flatten(sceneries) + world.zcJws)`extent
      modifies (set j | j in Flatten(sceneries) + world.zcJws)`wheels, (set j | j in Flatten(sceneries) + world.zcJws)`warnlight
      modifies this`state
      ensures state == StIdle && AllReset(Flatten(sceneries) + world.zcJws, m.tanD)
    {
      ResetJetways(world, sceneries, m);
    }

    /**
     * `jw_auto_mode_change`: leaving SELECT_JWS drops to IDLE; in any other
     * state the jetways are reset, since an animation might be running.
     */
    method AutoModeChange(world: JwWorld, sceneries: seq<seq<SamJw>>, m: Math)
      requires Valid()
      modifies (set j | j in Flatten(sceneries) + world.zcJws)`rotate1, (set j | j in Flatten(sceneries) + world.zcJws)`rotate2
      modifies (set j | j in Flatten(sceneries) + world.zcJws)`rotate3, (set j | j in Flatten(sceneries) + world.zcJws)`extent
      modifies (set j | j in Flatten(sceneries) + world.zcJws)`wheels, (set j | j in Flatten(sceneries) + world.zcJws)`warnlight
      modifies this`state
      ensures Valid() && state == StIdle
      ensures old(state) != StSelectJws ==> forall j :: j in Flatten(sceneries) + world.zcJws ==> j.IsReset(m.tanD)
    {
      if state == StSelectJws {
        state := StIdle;
      } else {
        ResetJetways(world, sceneries, m);
      }
    }

    /**
     * `cmd_dock_jw_cb` for the dock command: the request counter is set to
     * 2, so the state machine sees it ripe (1) one cycle later.
     */
    method DockCommand()
      modifies this`dockRequested
      ensures dockRequested == 2
    {
      dockRequested := 2;
    }

    /** `cmd_dock_jw_cb` for the undock command. */
    method UndockCommand()
      modifies this`undockRequested
      ensures undockRequested == 2
    {
      undockRequested := 2;
    }

    /** `cmd_dock_jw_cb` for the toggle command. */
    method ToggleCommand()
      modifies this`toggleRequested
      ensures toggleRequested == 2
    {
      toggleRequested := 2;
    }

    /**
     * `cmd_xp12_dock_jw_cb`: the simulator's own jetway command toggles
     * only where a toggle means something, in CAN_DOCK and DOCKED.
     */
    method Xp12Toggle()
      modifies this`toggleRequested
      ensures toggleRequested == (if state == StCanDock || state == StDocked then 2 else old(toggleRequested))
    {
      if state == StCanDock || state == StDocked {
        toggleRequested := 2;
      }
    }

    /**
     * What the arm of the entry state leaves, for a cycle that started with
     * the registers `r0`: the entry state, the arm's outcome and counters as
     * `Cycle` has them, and the invariant as far as the arm keeps it.
     */
    predicate Armed(r0: Regs, out: ArmOut, v: Seen)
      reads this`state, this`prevState, this`dockRequested, this`undockRequested, this`toggleRequested, this`nActiveJw
    {
      state == Entry(r0.state, v.teleported) && out == Arm(state, r0, v)
      && Registers() == Regs(state, r0.prev, DockBase(state, r0, v), UndockBase(state, r0, v),
                             if state == StIdle && Parks(v) then 0 else r0.toggle)
      && (state == StIdle ==> out == Go(StIdle) || out == Go(StParked))
      && (state == StIdle || out == Go(StParked) || out == Go(StSelectJws) || out == Go(StCantDock) ==> nActiveJw == 0)
      && (out.Wait? ==> Staged())
    }

    /**
     * What the PARKED and SELECT_JWS arms of a cycle that started with the
     * registers `r0` found, for `nDoor` doors: PARKED counts the candidates
     * the search kept, SELECT_JWS without the beacon counts the selection,
     * which is the automatic one in automatic mode.
     */
    predicate Picked(r0: Regs, v: Seen, nDoor: nat)
      reads this`nActiveJw, this`autoSelect, buf, buf.slots
    {
      var s := Entry(r0.state, v.teleported);
      (s == StParked ==> v.found == (if nDoor == 0 then 0 else buf.n))
      && (s == StSelectJws && !v.beaconOn ==>
            v.nActive == nActiveJw && (autoSelect && buf.Valid() ==> nActiveJw == |Chosen(buf.Held(), nDoor)|))
    }

    /**
     * All an arm promises about a cycle that started with the registers
     * `r0`, `n0` active jetways in the slots `sl` and `nDoor` doors.
     */
    predicate Outcome(r0: Regs, out: ArmOut, v: Seen, n0: int, sl: seq<Option<JwCtrl>>, nDoor: nat)
      reads this`state, this`prevState, this`dockRequested, this`undockRequested, this`toggleRequested
      reads this`nActiveJw, this`autoSelect, buf, buf.slots
      reads (set k | 0 <= k < |sl| && sl[k].Some? :: sl[k].value)`state
    {
      Armed(r0, out, v) && Picked(r0, v, nDoor) && Witnessed(r0, v, n0, sl, nDoor)
    }

    /** The IDLE arm within the cycle, entered directly or through a teleport. */
    method IdleCase(pose: PlanePose, beaconOn: bool, onGround: bool, teleported: bool, ghost r0: Regs,
                    ghost n0: int, ghost sl: seq<Option<JwCtrl>>, ghost nDoor: nat)
      returns (out: ArmOut, ghost v: Seen)
      requires Sound() && state == StIdle && (prevState == StIdle ==> nActiveJw == 0)
      requires r0.state != StDisabled && Entry(r0.state, teleported) == StIdle && Registers() == r0.(state := StIdle)
      modifies this`nActiveJw, active, buf`n, buf.slots, this`parked
      modifies this`dockRequested, this`undockRequested, this`toggleRequested
      ensures Sound() && v.beaconOn == beaconOn && v.onGround == onGround && v.teleported == teleported
      ensures Outcome(r0, out, v, n0, sl, nDoor)
    {
      var next := IdleArm(pose, beaconOn, onGround);
      out := Go(next);
      v := Seen(beaconOn, onGround, teleported, 0, 0, 0);
    }

    /** A teleport from beyond IDLE: `reset_jetways`, then the IDLE arm. */
    method TeleportCase(pose: PlanePose, beaconOn: bool, onGround: bool, world: JwWorld, sceneries: seq<seq<SamJw>>,
                        ghost jws: seq<SamJw>, m: Math, ghost r0: Regs, ghost n0: int, ghost sl: seq<Option<JwCtrl>>,
                        ghost nDoor: nat)
      returns (out: ArmOut, ghost v: Seen)
      requires Valid() && state > StIdle && jws == Flatten(sceneries) + world.zcJws && r0 == Registers()
      modifies this`state, this`nActiveJw, active, buf`n, buf.slots, this`parked
      modifies this`dockRequested, this`undockRequested, this`toggleRequested
      modifies (set j | j in Flatten(sceneries) + world.zcJws)`rotate1, (set j | j in Flatten(sceneries) + world.zcJws)`rotate2
      modifies (set j | j in Flatten(sceneries) + world.zcJws)`rotate3, (set j | j in Flatten(sceneries) + world.zcJws)`extent
      modifies (set j | j in Flatten(sceneries) + world.zcJws)`wheels, (set j | j in Flatten(sceneries) + world.zcJws)`warnlight
      ensures Sound() && v.beaconOn == beaconOn && v.onGround == onGround && v.teleported
      ensures Outcome(r0, out, v, n0, sl, nDoor) && AllReset(jws, m.tanD)
    {
      Teleported(world, sceneries, m);
      out, v := IdleCase(pose, beaconOn, onGround, true, r0, n0, sl, nDoor);
    }

    /**
     * The arms of the `switch` that find and select jetways: PARKED,
     * SELECT_JWS and CANT_DOCK.  None touches the command counters, and a
     * machine that stays short of CAN_DOCK has no active jetway.
     */
    method SwitchSelect(doors: seq<DoorInfo>, beaconOn: bool, onGround: bool, teleported: bool, world: JwWorld,
                        latR: real, lonR: real, sceneries: seq<seq<SamJw>>, ghost jws: seq<SamJw>, m: Math, ghost r0: Regs,
                        ghost n0: int, ghost sl: seq<Option<JwCtrl>>)
      returns (out: ArmOut, ghost v: Seen)
      requires Valid() && world.Valid() && jws == Flatten(sceneries) + world.zcJws && NoDup(jws) && |doors| <= KMaxDoor
      requires state == StParked || state == StSelectJws || state == StCantDock
      requires r0 == Registers() && !teleported
      modifies this`nActiveJw, this`uiUnlocked, active, buf`n, buf.slots, world, HeldJws()`wheels, (set j | j in jws)`name
      ensures Sound() && world.Valid() && v.beaconOn == beaconOn && v.onGround == onGround && v.teleported == teleported
      ensures Outcome(r0, out, v, n0, sl, |doors|)
    {
      var found: nat := 0;
      var nAct := nActiveJw;
      var next;
      if state == StParked {
        next, found := ParkedArm(doors, world, latR, lonR, sceneries, jws, m);
      } else if state == StSelectJws {
        next, nAct := SelectArm(doors, beaconOn, m);
      } else {
        next := if !onGround || beaconOn then StIdle else StCantDock;
      }
      out := Go(next);
      v := Seen(beaconOn, onGround, teleported, found, nAct, 0);
    }

    /**
     * The arms of the `switch` that drive jetways: CAN_DOCK, DOCKING,
     * DOCKED, UNDOCKING, and the default arm that disables the machine.
     */
    method SwitchDock(nDoor: nat, beaconOn: bool, onGround: bool, teleported: bool, now: real, m: Math, ghost r0: Regs,
                      ghost n0: int, ghost sl: seq<Option<JwCtrl>>)
      returns (out: ArmOut, ghost v: Seen)
      requires Valid() && nDoor <= KMaxDoor && n0 == nActiveJw && sl == active[..]
      requires !(StDisabled <= state <= StParked || state == StSelectJws || state == StCantDock)
      requires r0 == Registers() && !(state > StIdle && teleported)
      modifies this`undockRequested, Ctrls(), ActiveJws()
      ensures Sound() && v.beaconOn == beaconOn && v.onGround == onGround && v.teleported == teleported
      ensures Outcome(r0, out, v, n0, sl, nDoor)
    {
      var nDone: nat := 0;
      if state == StCanDock {
        var next := CanDockArm(nDoor, beaconOn, now);
        out := Go(next);
      } else if state == StDocking {
        out, nDone := DockingArm(nDoor, now, m);
      } else if state == StDocked {
        var next := DockedArm(nDoor, beaconOn, onGround, now);
        out := Go(next);
      } else if state == StUndocking {
        out, nDone := UndockingArm(nDoor, now, m);
      } else {
        out := Go(StDisabled);
      }
      v := Seen(beaconOn, onGround, teleported, 0, nActiveJw, nDone);
    }

    /**
     * `jw_state_machine`, one call from the flight loop: the registers and
     * the returned delay follow `Cycle`; the invariant holds again; a
     * teleport resets every jetway; a transition to IDLE drops the
     * selection; what `Cycle` saw is what the arms found (`Picked`), and
     * DOCKING and UNDOCKING finish exactly when every active jetway has
     * docked, or parked (`Witnessed`).
     */
    method Step(doors: seq<DoorInfo>, pose: PlanePose, beaconOn: bool, onGround: bool, teleported: bool, now: real,
                world: JwWorld, latR: real, lonR: real, sceneries: seq<seq<SamJw>>, ghost jws: seq<SamJw>, m: Math)
      returns (delay: real, ghost v: Seen)
      requires Valid() && world.Valid() && jws == Flatten(sceneries) + world.zcJws && NoDup(jws) && |doors| <= KMaxDoor
      modifies this, active, buf, buf.slots, world, Ctrls(), ActiveJws(), HeldJws(), set j | j in jws
      ensures Valid() && world.Valid()
      ensures v.beaconOn == beaconOn && v.onGround == onGround && v.teleported == teleported
      ensures (Registers(), delay) == Cycle(old(Registers()), v)
      ensures delay == -1.0 && state == StIdle ==> nActiveJw == 0 && buf.n == 0
      ensures Picked(old(Registers()), v, |doors|)
      ensures Witnessed(old(Registers()), v, old(nActiveJw), old(active[..]), |doors|)
      ensures old(state) > StIdle && teleported ==> AllReset(jws, m.tanD)
    {
      if state == StDisabled {
        v := Seen(beaconOn, onGround, teleported, 0, 0, 0);
        return 2.0, v;
      }
      var out;
      out, v := Arms(doors, pose, beaconOn, onGround, teleported, now, world, latR, lonR, sceneries, jws, m);
      delay := Commit(out, old(Registers()), v, old(nActiveJw), old(active[..]), |doors|);
    }

    /**
     * `jw_state_machine` from the teleport check through the `switch`: a
     * teleport from beyond IDLE resets the jetways and drops to IDLE, then
     * the arm of the entry state runs.
     */
    method Arms(doors: seq<DoorInfo>, pose: PlanePose, beaconOn: bool, onGround: bool, teleported: bool, now: real,
                world: JwWorld, latR: real, lonR: real, sceneries: seq<seq<SamJw>>, ghost jws: seq<SamJw>, m: Math)
      returns (out: ArmOut, ghost v: Seen)
      requires Valid() && state != StDisabled && world.Valid() && jws == Flatten(sceneries) + world.zcJws && NoDup(jws)
      requires |doors| <= KMaxDoor
      modifies this`state, this`nActiveJw, this`parked, this`dockRequested, this`undockRequested, this`toggleRequested
      modifies this`uiUnlocked, active, buf`n, buf.slots, world, Ctrls(), ActiveJws(), HeldJws(), set j | j in jws
      ensures Sound() && world.Valid() && v.beaconOn == beaconOn && v.onGround == onGround && v.teleported == teleported
      ensures Outcome(old(Registers()), out, v, old(nActiveJw), old(active[..]), |doors|)
      ensures old(state) > StIdle && teleported ==> AllReset(jws, m.tanD)
    {
      ghost var r0 := Registers();
      ghost var n0 := nActiveJw;
      ghost var sl := active[..];
      if state > StIdle && teleported {
        out, v := TeleportCase(pose, beaconOn, onGround, world, sceneries, jws, m, r0, n0, sl, |doors|);
      } else if state == StIdle {
        out, v := IdleCase(pose, beaconOn, onGround, teleported, r0, n0, sl, |doors|);
      } else if state == StParked || state == StSelectJws || state == StCantDock {
        out, v := SwitchSelect(doors, beaconOn, onGround, teleported, world, latR, lonR, sceneries, jws, m, r0, n0, sl);
      } else {
        out, v := SwitchDock(|doors|, beaconOn, onGround, teleported, now, m, r0, n0, sl);
      }
    }

    /**
     * The tail of `jw_state_machine` after an arm chose `out`: unless an
     * animation still runs, the counters go down by one, the toggle is
     * cleared, the entry state is remembered, and a transition is taken at
     * once, to IDLE without any selection.
     */
    method Commit(out: ArmOut, ghost r0: Regs, ghost v: Seen, ghost n0: int, ghost sl: seq<Option<JwCtrl>>, ghost nDoor: nat)
      returns (delay: real)
      requires Sound() && r0.state != StDisabled && Outcome(r0, out, v, n0, sl, nDoor)
      modifies this`state, this`prevState, this`dockRequested, this`undockRequested, this`toggleRequested
      modifies this`uiUnlocked, this`nActiveJw, active, buf`n
      ensures Valid() && (Registers(), delay) == Cycle(r0, v) && Picked(r0, v, nDoor) && Witnessed(r0, v, n0, sl, nDoor)
      ensures delay == -1.0 && state == StIdle ==> nActiveJw == 0 && buf.n == 0
    {
      CycleOf(r0, v, out, Registers());
      ghost var s := Entry(r0.state, v.teleported);
      assert s == StParked || (s == StSelectJws && !v.beaconOn) ==> out.Go? && out.next != StIdle;
      delay := Tail(out);
    }

    /** `Commit` on the registers alone: the counters, the remembered state and the transition. */
    method Tail(out: ArmOut) returns (delay: real)
      requires Sound()
      requires state == StIdle ==> out == Go(StIdle) || out == Go(StParked)
      requires state == StIdle || out == Go(StParked) || out == Go(StSelectJws) || out == Go(StCantDock) ==> nActiveJw == 0
      requires out.Wait? ==> Staged()
      modifies this`state, this`prevState, this`dockRequested, this`undockRequested, this`toggleRequested
      modifies this`uiUnlocked, this`nActiveJw, active, buf`n
      ensures Valid()
      ensures out.Wait? ==> Registers() == old(Registers()) && delay == AnimInterval
      ensures out.Go? ==> Registers() == Regs(out.next, old(state), old(dockRequested) - 1, old(undockRequested) - 1, 0)
      ensures out.Go? ==> delay == if out.next != old(state) then -1.0 else 0.5
      ensures out.Wait? || out.next != StIdle ==> nActiveJw == old(nActiveJw) && buf.n == old(buf.n)
      ensures delay == -1.0 && state == StIdle ==> nActiveJw == 0 && buf.n == 0
    {
      if out.Wait? {
        return AnimInterval;
      }
      dockRequested := dockRequested - 1;
      undockRequested := undockRequested - 1;
      toggleRequested := 0;
      prevState := state;
      if out.next != state {
        Enter(out.next);
        return -1.0;
      }
      return 0.5;
    }

    /** A transition: the new state, and from anywhere to IDLE no selection is left. */
    method Enter(next: int)
      requires Sound()
      modifies this`state, this`uiUnlocked, this`nActiveJw, active, buf`n
      ensures Sound() && state == next && !uiUnlocked
      ensures next == StIdle ==> nActiveJw == 0 && buf.n == 0
      ensures next != StIdle ==> nActiveJw == old(nActiveJw) && active[..] == old(active[..]) && buf.n == old(buf.n)
    {
      state := next;
      if state == StIdle {
        ClearActive();
        buf.n := 0;
      }
      uiUnlocked := false;
    }
  }

  /** Slot set up: the controller holds `w`, its jetway still stands at `p` and its wheels are set. */
  predicate SlotDone(c: JwCtrl, p: JwPose, w: DoorSetup, m: Math)
    reads c`x, c`z, c`psi, c`y, c`cabinX, c`cabinZ, c`doorX, c`doorRot1, c`doorRot2
    reads c`doorRot3, c`doorExtent, c`parkedX, c`parkedZ, c`apX
    reads c.jw`x, c.jw`z, c.jw`y, c.jw`psi, c.jw`initialRot1, c.jw`extent, c.jw`initialExtent, c.jw`geom
    reads c.jw`wheels, c.jw`rotate3
  {
    PoseOf(c.jw) == p && c.HasSetup(w) && Wheeled(c.jw, m)
  }

  /** A controller holding the set-up planned from its jetway's pose holds the set-up for its door. */
  lemma SetUpFromPose(c: JwCtrl, plane: PlanePose, di: DoorInfo, door: nat, m: Math, p: JwPose, w: DoorSetup)
    requires PoseOf(c.jw) == p && w == Slanted(SetupFrom(p, plane, di, m), door) && c.HasSetup(w)
    ensures SetUpFor(c, plane, di, door, m)
  {
  }

  /** `find_nearest_jws` as the state machine sees it: the count, which is the buffer's fill. */
  method FindNearest(buf: NearestBuf, world: JwWorld, latR: real, lonR: real, doors: seq<DoorInfo>, plane: PlanePose,
                     sceneries: seq<seq<SamJw>>, ghost jws: seq<SamJw>, m: Math) returns (n: nat)
    requires buf.Valid() && NoDup(JwsOf(buf.Held())) && world.Valid() && jws == Flatten(sceneries) + world.zcJws && NoDup(jws)
    modifies buf`n, buf.slots, world, (set j | j in jws)`name
    ensures buf.Valid() && NoDup(JwsOf(buf.Held())) && world.Valid()
    ensures n == (if |doors| == 0 then 0 else buf.n)
  {
    ghost var ranked;
    n, ranked := OsJw.FindNearestJws(buf, world, latR, lonR, doors, plane, sceneries, jws, m);
  }

  /**
   * `setup_dock_undock` of the controller in slot `i` with start time
   * `start`; the other slots' controllers keep theirs.
   */
  method StartSlot(c: JwCtrl, ghost sl: seq<Option<JwCtrl>>, ghost i: nat, ghost starts: seq<real>, start: real)
    requires DistinctSlots(sl) && i < |sl| && sl[i] == Some(c) && i < |starts|
    requires forall k :: 0 <= k < i && sl[k].Some? ==> Started(sl[k].value, starts[k])
    modifies c`state, c`startTs, c`lastStepTs, c`timeout, c.jw`warnlight
    ensures forall k :: 0 <= k <= i && sl[k].Some? ==>
      Started(sl[k].value, if k == i then start else starts[k])
  {
    assert forall k :: 0 <= k < i && sl[k].Some? ==> sl[k].value != c && sl[k].value.jw != c.jw;
    c.SetupDockUndock(start);
  }

  /**
   * `dock_drive` of the controller in slot `i` as the state machine sees it:
   * done exactly when docked; the other slots' controllers keep their state.
   */
  method DockSlot(c: JwCtrl, ghost sl: seq<Option<JwCtrl>>, ghost i: nat, ghost done: seq<bool>, now: real, m: Math) returns (d: bool)
    requires DistinctSlots(sl) && i < |sl| && sl[i] == Some(c) && |done| == i
    requires forall k :: 0 <= k < i ==> (done[k] <==> sl[k].Some? && sl[k].value.state == Docked)
    modifies c`state, c`lastStepTs, c`cabinX, c`cabinZ
    modifies c`wbRot, c`waitWbRot
    modifies c.jw`rotate1, c.jw`rotate2, c.jw`rotate3, c.jw`extent
    modifies c.jw`wheels, c.jw`wheelrotatec, c.jw`wheelrotatel
    modifies c.jw`wheelrotater, c.jw`warnlight
    ensures forall k :: 0 <= k <= i ==> ((done + [d])[k] <==> sl[k].Some? && sl[k].value.state == Docked)
  {
    assert forall k :: 0 <= k < i && sl[k].Some? ==> sl[k].value != c;
    d := c.DockDrive(now, m);
  }

  /**
   * `undock_drive` of the controller in slot `i` as the state machine sees
   * it: done exactly when parked; the other slots' controllers keep their state.
   */
  method UndockSlot(c: JwCtrl, ghost sl: seq<Option<JwCtrl>>, ghost i: nat, ghost done: seq<bool>, now: real, m: Math) returns (d: bool)
    requires DistinctSlots(sl) && i < |sl| && sl[i] == Some(c) && |done| == i
    requires forall k :: 0 <= k < i ==> (done[k] <==> sl[k].Some? && sl[k].value.state == Parked)
    modifies c`state, c`lastStepTs, c`cabinX, c`cabinZ
    modifies c`wbRot, c`waitWbRot
    modifies c.jw`rotate1, c.jw`rotate2, c.jw`rotate3, c.jw`extent
    modifies c.jw`wheels, c.jw`wheelrotatec, c.jw`wheelrotatel
    modifies c.jw`wheelrotater, c.jw`warnlight, c.jw`locked
    ensures forall k :: 0 <= k <= i ==> ((done + [d])[k] <==> sl[k].Some? && sl[k].value.state == Parked)
  {
    assert forall k :: 0 <= k < i && sl[k].Some? ==> sl[k].value != c;
    d := c.UndockDrive(now, m, false);
  }

  /** The wheel height `set_wheels` gives the jetway in its current pose. */
  function WheelsSet(jw: SamJw, m: Math): real
    reads jw`rotate3, jw`extent, jw`geom
  {
    jw.WheelsAt(jw.rotate3, jw.extent, m.tanD)
  }

  /** The wheels stand where `set_wheels` puts them. */
  predicate Wheeled(jw: SamJw, m: Math)
    reads jw`wheels, jw`rotate3, jw`extent, jw`geom
  {
    jw.wheels == WheelsSet(jw, m)
  }

  /** The set-up with the slant of door 0. */
  function Slanted(s: DoorSetup, door: nat): (r: DoorSetup)
    ensures door != 0 ==> r == s
    ensures r.doorRot2 == s.doorRot2 + (if door == 0 then FirstDoorSlant else 0.0)
  {
    if door == 0 then s.(doorRot2 := s.doorRot2 + FirstDoorSlant) else s
  }

  /** `setup_for_door` on one controller: the set-up `s`, then `set_wheels`. */
  method SetupSlot(c: JwCtrl, s: DoorSetup, m: Math)
    modifies c`x, c`z, c`psi, c`y, c`cabinX, c`cabinZ, c`doorX, c`doorRot1, c`doorRot2, c`doorRot3, c`doorExtent
    modifies c`parkedX, c`parkedZ, c`apX, c.jw`wheels
    ensures c.HasSetup(s) && Wheeled(c.jw, m)
  {
    ApplySetup(c, s);
    c.jw.wheels := c.jw.WheelsAt(c.jw.rotate3, c.jw.extent, m.tanD);
  }

  /** The controller holds the set-up for door `door` of the plane parked at `plane`. */
  predicate SetUpFor(c: JwCtrl, plane: PlanePose, di: DoorInfo, door: nat, m: Math)
    reads c`x, c`z, c`psi, c`y, c`cabinX, c`cabinZ, c`doorX, c`doorRot1, c`doorRot2
    reads c`doorRot3, c`doorExtent, c`parkedX, c`parkedZ, c`apX
    reads c.jw`x, c.jw`z, c.jw`y, c.jw`psi, c.jw`initialRot1, c.jw`extent, c.jw`initialExtent, c.jw`geom
  {
    c.HasSetup(Slanted(SetupFor(c.jw, plane, di, m), door))
  }

  /** The controller takes the set-up `setup_for_door` computed. */
  method ApplySetup(c: JwCtrl, s: DoorSetup)
    modifies c`x, c`z, c`psi, c`y, c`cabinX, c`cabinZ, c`doorX, c`doorRot1, c`doorRot2, c`doorRot3, c`doorExtent
    modifies c`parkedX, c`parkedZ, c`apX
    ensures c.HasSetup(s)
  {
    c.x, c.z, c.psi, c.y := s.x, s.z, s.psi, s.y;
    c.cabinX, c.cabinZ := s.cabinX, s.cabinZ;
    c.doorX, c.doorRot1, c.doorRot2, c.doorRot3, c.doorExtent := s.doorX, s.doorRot1, s.doorRot2, s.doorRot3, s.doorExtent;
    c.parkedX, c.parkedZ, c.apX := s.parkedX, s.parkedZ, s.apX;
  }
}
