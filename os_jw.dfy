/**
 * os_jw.cpp: the plane's jetway logic in its global-state form.  The
 * candidate buffer `nearest_jw` has a fixed capacity and is sorted and
 * trimmed whenever it fills up; the selected controllers live in the fixed
 * array `active_jw`; the state machine keeps its state, its previous state
 * and the command counters in globals.
 *
 * The library values, the zero-config jetways, the reference frame check,
 * the dataref accessor, the ctx encoding, the `rotate_*` steps and the
 * dock drive of this file are the same code as in samjw.cpp and jwctrl.cpp
 * and are modelled there (modules SamJws and JwCtrls).  The undock drive
 * differs: its jetways carry no lock and its time-out leaves the wheel
 * height alone; `JwCtrl.UndockDrive` with `locks == false` is that version.
 */
module OsJw {
  import opened Wrappers
  import opened OpenSamH
  import opened SamJws
  import opened JwCtrls
  import MyPlanes
  import PlaneLegacy

  /** Capacity of the candidate buffer (MAX_NEAREST). */
  const MaxNearest := 10
  /** How many candidates a trim keeps (NEAR_JW_LIMIT). */
  const NearJwLimit := 3
  /** The distance threshold `find_nearest_jws` starts with. */
  const FarThreshold: real := 10000000000.0

  // ---------------------------------------------------------------------
  // The filters of `filter_candidates`
  // ---------------------------------------------------------------------

  /** The filters of this version: visibility, reach and the sam.xml limits with the soft match, but no lock test. */
  function OsVerdict(j: SamJw, plane: PlanePose, di: DoorInfo, refGen: nat, m: Math): Verdict
    reads j`x, j`z, j`y, j`psi, j`initialRot1, j`extent, j`initialExtent, j`geom, j`objRefGen
  {
    Judge(j.objRefGen >= refGen, false, SetupFor(j, plane, di, m), j.initialRot1, j.geom)
  }

  /** What the filters make of a jetway, threshold aside: a candidate with its door set-up and soft flag, or none. */
  function Judged(j: SamJw, plane: PlanePose, di: DoorInfo, refGen: nat, m: Math): (r: Option<Candidate>)
    reads j`x, j`z, j`y, j`psi, j`initialRot1, j`extent, j`initialExtent, j`geom, j`objRefGen
    ensures r.Some? <==> OsVerdict(j, plane, di, refGen, m).Take?
    ensures r.Some? ==> r.value.jw == j && r.value.setup == SetupFor(j, plane, di, m)
  {
    var v := OsVerdict(j, plane, di, refGen, m);
    if v.Take? then Some(Candidate(j, SetupFor(j, plane, di, m), v.Soft())) else None
  }

  /** A candidate is what the filters make of its own jetway. */
  predicate Kept(c: Candidate, plane: PlanePose, di: DoorInfo, refGen: nat, m: Math)
    reads c.jw`x, c.jw`z, c.jw`y, c.jw`psi, c.jw`initialRot1, c.jw`extent, c.jw`initialExtent, c.jw`geom, c.jw`objRefGen
  {
    Judged(c.jw, plane, di, refGen, m) == Some(c)
  }

  /** The filters applied to each jetway of a list. */
  function JudgedAll(jws: seq<SamJw>, plane: PlanePose, di: DoorInfo, refGen: nat, m: Math): (r: seq<Option<Candidate>>)
    reads jws
    ensures |r| == |jws|
    decreases |jws|
  {
    if jws == [] then []
    else JudgedAll(jws[..|jws| - 1], plane, di, refGen, m) + [Judged(jws[|jws| - 1], plane, di, refGen, m)]
  }

  /** Each entry of the judged list is the verdict on the jetway at its position. */
  lemma {:induction false} JudgedAllAt(jws: seq<SamJw>, plane: PlanePose, di: DoorInfo, refGen: nat, m: Math, k: nat)
    requires k < |jws|
    ensures JudgedAll(jws, plane, di, refGen, m)[k] == Judged(jws[k], plane, di, refGen, m)
    decreases |jws|
  {
    if k < |jws| - 1 {
      JudgedAllAt(jws[..|jws| - 1], plane, di, refGen, m, k);
    }
  }

  /** Each entry of a list of verdicts is the verdict on the jetway at the same position. */
  predicate JudgedEach(os: seq<Option<Candidate>>, jws: seq<SamJw>, plane: PlanePose, di: DoorInfo, refGen: nat, m: Math)
    reads jws
  {
    |os| == |jws|
    && forall k {:trigger Judged(jws[k], plane, di, refGen, m)} :: 0 <= k < |jws| ==> os[k] == Judged(jws[k], plane, di, refGen, m)
  }

  /** The judged list of a list of jetways holds the verdict on each, a candidate naming its own jetway. */
  lemma JudgedAllEach(jws: seq<SamJw>, plane: PlanePose, di: DoorInfo, refGen: nat, m: Math)
    ensures JudgedEach(JudgedAll(jws, plane, di, refGen, m), jws, plane, di, refGen, m)
    ensures Tagged(JudgedAll(jws, plane, di, refGen, m), jws)
  {
    forall k | 0 <= k < |jws|
      ensures JudgedAll(jws, plane, di, refGen, m)[k] == Judged(jws[k], plane, di, refGen, m)
    {
      JudgedAllAt(jws, plane, di, refGen, m, k);
    }
  }

  /** A slice of a judged list judges the same slice of the jetways. */
  lemma JudgedEachSlice(os: seq<Option<Candidate>>, jws: seq<SamJw>, lo: nat, hi: nat, plane: PlanePose, di: DoorInfo,
                        refGen: nat, m: Math)
    requires lo <= hi <= |jws| && JudgedEach(os, jws, plane, di, refGen, m)
    ensures JudgedEach(os[lo..hi], jws[lo..hi], plane, di, refGen, m)
  {
    forall k | 0 <= k < hi - lo
      ensures os[lo..hi][k] == Judged(jws[lo..hi][k], plane, di, refGen, m)
    {
      assert jws[lo..hi][k] == jws[lo + k];
      assert os[lo + k] == Judged(jws[lo + k], plane, di, refGen, m);
    }
  }

  /** Each candidate of a list of verdicts names the jetway at its own position. */
  predicate Tagged(os: seq<Option<Candidate>>, jws: seq<SamJw>)
  {
    |os| == |jws| && forall k :: 0 <= k < |os| && os[k].Some? ==> os[k].value.jw == jws[k]
  }

  /** A slice of a tagged list is tagged by the same slice of the jetways. */
  lemma TaggedSlice(os: seq<Option<Candidate>>, jws: seq<SamJw>, lo: nat, hi: nat)
    requires lo <= hi <= |jws| && Tagged(os, jws)
    ensures Tagged(os[lo..hi], jws[lo..hi])
  {
    forall k | 0 <= k < hi - lo && os[lo..hi][k].Some?
      ensures os[lo..hi][k].value.jw == jws[lo..hi][k]
    {
      assert os[lo..hi][k] == os[lo + k] && jws[lo..hi][k] == jws[lo + k];
    }
  }

  /** The candidates whose door-frame z does not exceed the threshold, in order. */
  function Passed(os: seq<Option<Candidate>>, thr: real): (r: seq<Candidate>)
    ensures |r| <= |os|
    ensures forall c :: c in r ==> Some(c) in os && c.setup.z <= thr
  {
    if os == [] then []
    else
      var o := os[|os| - 1];
      var r0 := Passed(os[..|os| - 1], thr);
      assert forall c :: c in r0 ==> Some(c) in os;
      r0 + (if o.Some? && o.value.setup.z <= thr then [o.value] else [])
  }

  /** Every candidate within the threshold passes. */
  lemma {:induction false} PassedComplete(os: seq<Option<Candidate>>, thr: real)
    ensures forall k :: 0 <= k < |os| && os[k].Some? && os[k].value.setup.z <= thr ==> os[k].value in Passed(os, thr)
  {
    if os != [] {
      PassedComplete(os[..|os| - 1], thr);
      assert forall k :: 0 <= k < |os| - 1 ==> os[..|os| - 1][k] == os[k];
    }
  }

  /** Passing two lists one after the other passes what each passes, in order. */
  lemma {:induction false} PassedConcat(a: seq<Option<Candidate>>, b: seq<Option<Candidate>>, thr: real)
    ensures Passed(a + b, thr) == Passed(a, thr) + Passed(b, thr)
  {
    if b != [] {
      var b0 := b[..|b| - 1];
      assert (a + b)[..|a + b| - 1] == a + b0;
      assert (a + b)[|a + b| - 1] == b[|b| - 1];
      PassedConcat(a, b0, thr);
    } else {
      assert a + b == a;
    }
  }

  /** The candidates admitted from a list under a fixed threshold, in list order. */
  function OsCandidates(jws: seq<SamJw>, plane: PlanePose, di: DoorInfo, refGen: nat, m: Math, thr: real): (r: seq<Candidate>)
    reads jws
    ensures |r| <= |jws| && forall c :: c in r ==> c.setup.z <= thr
  {
    Passed(JudgedAll(jws, plane, di, refGen, m), thr)
  }

  /** Every admitted candidate comes from the list and is what the filters make of its jetway. */
  lemma OsCandidatesKept(jws: seq<SamJw>, plane: PlanePose, di: DoorInfo, refGen: nat, m: Math, thr: real)
    ensures forall c :: c in OsCandidates(jws, plane, di, refGen, m, thr) ==> c.jw in jws && Kept(c, plane, di, refGen, m)
  {
    var os := JudgedAll(jws, plane, di, refGen, m);
    forall c | c in OsCandidates(jws, plane, di, refGen, m, thr)
      ensures c.jw in jws && Kept(c, plane, di, refGen, m)
    {
      var k :| 0 <= k < |os| && os[k] == Some(c);
      JudgedAllAt(jws, plane, di, refGen, m, k);
    }
  }

  /** Every jetway the filters take within the threshold yields a candidate. */
  lemma OsCandidatesComplete(jws: seq<SamJw>, plane: PlanePose, di: DoorInfo, refGen: nat, m: Math, thr: real)
    ensures forall j :: j in jws && OsVerdict(j, plane, di, refGen, m).Take? && SetupFor(j, plane, di, m).z <= thr ==>
      Judged(j, plane, di, refGen, m).value in OsCandidates(jws, plane, di, refGen, m, thr)
  {
    var os := JudgedAll(jws, plane, di, refGen, m);
    PassedComplete(os, thr);
    forall j | j in jws && OsVerdict(j, plane, di, refGen, m).Take? && SetupFor(j, plane, di, m).z <= thr
      ensures Judged(j, plane, di, refGen, m).value in OsCandidates(jws, plane, di, refGen, m, thr)
    {
      var k :| 0 <= k < |jws| && jws[k] == j;
      JudgedAllAt(jws, plane, di, refGen, m, k);
    }
  }

  /** Without the lock test, the filters agree with jwctrl.cpp's on unlocked jetways and take every jetway those take. */
  lemma VerdictVersions(j: SamJw, plane: PlanePose, di: DoorInfo, refGen: nat, m: Math)
    ensures !j.locked ==> OsVerdict(j, plane, di, refGen, m) == VerdictOf(j, plane, di, refGen, m)
    ensures VerdictOf(j, plane, di, refGen, m).Take? ==> OsVerdict(j, plane, di, refGen, m) == VerdictOf(j, plane, di, refGen, m)
  {
  }

  /** An element of a list without duplicates does not occur before its position. */
  lemma NotEarlier<T>(s: seq<T>, p: nat)
    requires NoDup(s) && p < |s|
    ensures s[p] !in s[..p]
  {
    if s[p] in s[..p] {
      var i :| 0 <= i < p && s[..p][i] == s[p];
      NoDupDistinct(s, i, p);
    }
  }

  /** Jetways drawn from a list without duplicates, at most as often as there, are themselves without duplicates. */
  lemma NoDupSub(a: seq<Candidate>, b: seq<Candidate>)
    requires NoDup(JwsOf(b)) && multiset(JwsOf(a)) <= multiset(JwsOf(b))
    ensures NoDup(JwsOf(a))
  {
    forall x | x in JwsOf(a)
      ensures multiset(JwsOf(a))[x] <= 1
    {
      assert multiset(JwsOf(a))[x] <= multiset(JwsOf(b))[x];
    }
  }

  /** A prefix holds each jetway at most as often as the whole list. */
  lemma PrefixSub(s: seq<Candidate>, k: nat)
    requires k <= |s|
    ensures multiset(JwsOf(s[..k])) <= multiset(JwsOf(s)) && multiset(s[..k]) <= multiset(s)
  {
    assert s == s[..k] + s[k..];
    JwsOfConcat(s[..k], s[k..]);
  }

  // ---------------------------------------------------------------------
  // The candidate buffer `nearest_jw[MAX_NEAREST]` with `n_nearest`
  // ---------------------------------------------------------------------

  class NearestBuf {
    const slots: array<Option<Candidate>>
    var n: int

    /** The buffer has its fixed capacity, is never full between calls and holds a candidate in each used slot. */
    predicate Valid()
      reads this, slots
    {
      slots.Length == MaxNearest && 0 <= n < MaxNearest && forall k :: 0 <= k < n ==> slots[k].Some?
    }

    /** The candidates in the used slots. */
    function Held(): (h: seq<Candidate>)
      requires Valid()
      reads this, slots
      ensures |h| == n && forall k :: 0 <= k < n ==> slots[k] == Some(h[k])
    {
      seq(n, k requires 0 <= k < slots.Length && slots[k].Some? reads slots => slots[k].value)
    }

    /** The zero-initialised buffer. */
    constructor()
      ensures Valid() && n == 0 && fresh(slots) && forall k :: 0 <= k < MaxNearest ==> slots[k] == None
    {
      slots := new Option<Candidate>[MaxNearest](_ => None);
      n := 0;
    }

    /** The `memset` of the buffer and `n_nearest = 0`. */
    method Clear()
      requires Valid()
      modifies this`n, slots
      ensures Valid() && n == 0 && forall k :: 0 <= k < MaxNearest ==> slots[k] == None
    {
      forall k | 0 <= k < slots.Length {
        slots[k] := None;
      }
      n := 0;
    }

    /**
     * Adding a candidate in `filter_candidates`: it goes into the next
     * slot, which always exists; when that fills the buffer, the buffer is
     * sorted, trimmed to the first NEAR_JW_LIMIT and the threshold becomes
     * the z of the last one kept.
     */
    method Push(c: Candidate, thr: real) returns (thr': real, ghost sorted: seq<Candidate>)
      requires Valid()
      modifies this`n, slots
      ensures Valid()
      ensures old(n) + 1 < MaxNearest ==> Held() == old(Held()) + [c] && thr' == thr
      ensures old(n) + 1 == MaxNearest ==>
        |sorted| == MaxNearest && multiset(sorted) == multiset(old(Held()) + [c])
        && multiset(JwsOf(sorted)) == multiset(JwsOf(old(Held()) + [c])) && AdjacentOrdered(sorted)
        && Held() == sorted[..NearJwLimit] && thr' == sorted[NearJwLimit - 1].setup.z
    {
      ghost var h0 := Held();
      slots[n] := Some(c);
      n := n + 1;
      assert forall k :: 0 <= k < n ==> slots[k] == Some((h0 + [c])[k]);
      sorted := [];
      if n == MaxNearest {
        var all := seq(n, k requires 0 <= k < slots.Length && slots[k].Some? reads slots => slots[k].value);
        assert all == h0 + [c];
        thr', sorted := SortTrim(all);
        assert Held() == sorted[..NearJwLimit];
      } else {
        thr' := thr;
        assert Held() == h0 + [c];
      }
    }

    /** The sort and trim of a full buffer. */
    method SortTrim(all: seq<Candidate>) returns (thr': real, ghost sorted: seq<Candidate>)
      requires |all| == MaxNearest == slots.Length
      modifies this`n, slots
      ensures n == NearJwLimit && |sorted| == MaxNearest && forall k :: 0 <= k < MaxNearest ==> slots[k] == Some(sorted[k])
      ensures multiset(sorted) == multiset(all) && multiset(JwsOf(sorted)) == multiset(JwsOf(all)) && AdjacentOrdered(sorted)
      ensures thr' == sorted[NearJwLimit - 1].setup.z
    {
      var srt := SortCandidates(all);
      assert |multiset(srt)| == |multiset(all)|;
      sorted := srt;
      ghost var ordered := AdjacentOrdered(srt);
      forall k | 0 <= k < MaxNearest {
        slots[k] := Some(srt[k]);
      }
      n := NearJwLimit;
      thr' := srt[NearJwLimit - 1].setup.z;
      assert AdjacentOrdered(srt) == ordered;
    }

    /** The final sort of `find_nearest_jws`: more than one candidate is sorted and trimmed to NEAR_JW_LIMIT. */
    method FinalSort() returns (ghost all: seq<Candidate>)
      requires Valid()
      modifies this`n, slots
      ensures Valid() && n == (if old(n) > NearJwLimit then NearJwLimit else old(n))
      ensures multiset(all) == multiset(old(Held())) && multiset(JwsOf(all)) == multiset(JwsOf(old(Held())))
      ensures |all| == old(n) && AdjacentOrdered(all) && Held() == all[..n]
    {
      var h := Held();
      if n > 1 {
        all := SortBack(h);
      } else {
        all := h;
        assert h[..n] == h;
      }
    }

    /** Sorting the held candidates and writing them back, trimmed to NEAR_JW_LIMIT. */
    method SortBack(h: seq<Candidate>) returns (ghost all: seq<Candidate>)
      requires Valid() && h == Held()
      modifies this`n, slots
      ensures Valid() && n == (if old(n) > NearJwLimit then NearJwLimit else old(n))
      ensures |all| == |h| && multiset(all) == multiset(h) && multiset(JwsOf(all)) == multiset(JwsOf(h))
      ensures AdjacentOrdered(all) && Held() == all[..n]
    {
      var srt := SortCandidates(h);
      assert |multiset(srt)| == |multiset(h)|;
      ghost var ordered := AdjacentOrdered(srt);
      forall k | 0 <= k < |srt| {
        slots[k] := Some(srt[k]);
      }
      n := if n > NearJwLimit then NearJwLimit else n;
      all := srt;
      assert AdjacentOrdered(srt) == ordered;
    }
  }

  // ---------------------------------------------------------------------
  // `filter_candidates` and `find_nearest_jws`
  // ---------------------------------------------------------------------

  /**
   * The tests of `filter_candidates` for one jetway, in their order: not
   * visible, on the right side, pointing away or far off, beyond the
   * threshold, outside its limits by 10 m of extent or more; a jetway
   * outside its limits by less is a soft match.
   */
  method Filter(j: SamJw, ghost want: Option<Candidate>, plane: PlanePose, di: DoorInfo, refGen: nat, m: Math, thr: real)
    returns (r: Option<Candidate>)
    requires want == Judged(j, plane, di, refGen, m)
    ensures r == if want.Some? && want.value.setup.z <= thr then want else None
  {
    if j.objRefGen < refGen {
      return None;
    }
    var s := SetupFor(j, plane, di, m);
    if OutOfReach(s, j.initialRot1) {
      return None;
    }
    if s.z > thr {
      return None;
    }
    var soft := false;
    if !WithinLimits(s, j.geom) {
      if s.doorExtent - j.geom.maxExtent < 10.0 {
        soft := true;
      } else {
        return None;
      }
    }
    return Some(Candidate(j, s, soft));
  }

  /**
   * A candidate that passed the tests goes into the buffer, which trims
   * itself when full; the buffer keeps its jetways distinct.
   */
  method Offer(buf: NearestBuf, o: Option<Candidate>, ghost before: seq<SamJw>, thr: real)
    returns (thr': real, ghost trimmed: bool)
    requires buf.Valid() && NoDup(JwsOf(buf.Held()))
    requires forall c :: c in buf.Held() ==> c.jw in before
    requires o.Some? ==> o.value.jw !in before
    modifies buf`n, buf.slots
    ensures buf.Valid() && NoDup(JwsOf(buf.Held()))
    ensures forall c :: c in buf.Held() ==> c in old(buf.Held()) || Some(c) == o
    ensures !trimmed ==> (thr' == thr && buf.Held() == old(buf.Held()) + (if o.Some? then [o.value] else []))
    ensures trimmed ==> o.Some? && old(buf.n) + 1 == MaxNearest && buf.n == NearJwLimit
  {
    thr', trimmed := thr, false;
    if o.None? {
      return;
    }
    var c := o.value;
    ghost var h0 := buf.Held();
    ghost var sorted;
    thr', sorted := buf.Push(c, thr);
    trimmed := |h0| + 1 == MaxNearest;
    assert c.jw !in JwsOf(h0);
    AppendNew(h0, c);
    if trimmed {
      TrimKeeps(h0 + [c], sorted, buf.Held());
    }
  }

  /** Appending a candidate for a jetway not yet held keeps the jetways distinct. */
  lemma AppendNew(h: seq<Candidate>, c: Candidate)
    requires NoDup(JwsOf(h)) && c.jw !in JwsOf(h)
    ensures NoDup(JwsOf(h + [c]))
  {
    JwsOfConcat(h, [c]);
    assert multiset(JwsOf(h + [c])) == multiset(JwsOf(h)) + multiset{c.jw};
    forall x | x in JwsOf(h + [c])
      ensures multiset(JwsOf(h + [c]))[x] <= 1
    {
    }
  }

  /** The candidates a trim keeps are among those sorted, with distinct jetways. */
  lemma TrimKeeps(all: seq<Candidate>, sorted: seq<Candidate>, kept: seq<Candidate>)
    requires NoDup(JwsOf(all)) && |sorted| == |all| >= NearJwLimit && kept == sorted[..NearJwLimit]
    requires multiset(sorted) == multiset(all) && multiset(JwsOf(sorted)) == multiset(JwsOf(all))
    ensures NoDup(JwsOf(kept)) && forall x :: x in kept ==> x in all
  {
    PrefixSub(sorted, NearJwLimit);
    NoDupSub(kept, all);
    forall x | x in kept
      ensures x in all
    {
      assert x in multiset(all);
    }
  }

  /** Every candidate of `h` is for a jetway of `before`. */
  predicate From(h: seq<Candidate>, before: seq<SamJw>)
  {
    forall c :: c in h ==> c.jw in before
  }

  /**
   * The buffer's contents `h` after the verdicts `done`, starting from
   * `h0`: nothing but what it held or what passed; while it was never
   * trimmed, exactly that, in order, under the unchanged threshold `thrC`;
   * once trimmed, at least MAX_NEAREST candidates passed in all and the
   * buffer never again holds fewer than NEAR_JW_LIMIT.
   */
  predicate Filled(h: seq<Candidate>, h0: seq<Candidate>, done: seq<Option<Candidate>>, thr: real, thrC: real, trimmed: bool)
  {
    && (forall c :: c in h ==> c in h0 || Some(c) in done)
    && (!trimmed ==> h == h0 + Passed(done, thr) && thrC == thr)
    && (trimmed ==> |h0| + |Passed(done, thr)| >= MaxNearest && |h| >= NearJwLimit)
  }

  /** Before any verdict, the buffer holds what it held. */
  lemma FilledStart(h: seq<Candidate>, thr: real)
    ensures Filled(h, h, [], thr, thr, false)
  {
    assert h + Passed([], thr) == h;
  }

  /** A buffer filled from empty holds candidates that passed; all of them, in order, while it did not overflow. */
  lemma FilledFresh(h: seq<Candidate>, done: seq<Option<Candidate>>, thr: real, thrC: real, trimmed: bool)
    requires Filled(h, [], done, thr, thrC, trimmed)
    ensures forall c :: c in h ==> Some(c) in done
    ensures |Passed(done, thr)| < MaxNearest ==> h == Passed(done, thr) && thrC == thr
    ensures |Passed(done, thr)| >= MaxNearest ==> |h| >= NearJwLimit
  {
    assert [] + Passed(done, thr) == Passed(done, thr);
  }

  /**
   * `filter_candidates` over one list of jetways: the buffer never
   * overflows and only ever holds candidates the filters made; as long as
   * it does not fill up, it gains exactly the list's candidates within the
   * threshold, in list order, and the threshold stays.
   */
  method FilterCandidates(buf: NearestBuf, jws: seq<SamJw>, ghost seen: seq<SamJw>, ghost os: seq<Option<Candidate>>,
                          plane: PlanePose, di: DoorInfo, refGen: nat, m: Math, thr: real) returns (thr': real)
    requires buf.Valid() && NoDup(seen + jws) && NoDup(JwsOf(buf.Held()))
    requires JudgedEach(os, jws, plane, di, refGen, m) && Tagged(os, jws)
    requires forall c :: c in buf.Held() ==> c.jw in seen
    modifies buf`n, buf.slots
    ensures buf.Valid() && NoDup(JwsOf(buf.Held()))
    ensures forall c :: c in buf.Held() ==> c.jw in seen + jws && (c in old(buf.Held()) || Some(c) in os)
    ensures old(buf.n) + |Passed(os, thr)| < MaxNearest ==> (buf.Held() == old(buf.Held()) + Passed(os, thr) && thr' == thr)
    ensures buf.n >= (if old(buf.n) + |Passed(os, thr)| < NearJwLimit then old(buf.n) + |Passed(os, thr)| else NearJwLimit)
  {
    thr' := thr;
    ghost var h0 := buf.Held();
    ghost var all := seen + jws;
    ghost var trimmed := false;
    assert os[..0] == [];
    FilledStart(h0, thr);
    for i := 0 to |jws|
      invariant buf.Valid() && NoDup(JwsOf(buf.Held()))
      invariant From(buf.Held(), all[..|seen| + i])
      invariant Filled(buf.Held(), h0, os[..i], thr, thr', trimmed)
    {
      var o := FilterAt(jws, i, os, plane, di, refGen, m, thr');
      thr', trimmed := FilterOne(buf, o, jws, i, all, |seen|, os, h0, thr, thr', trimmed);
    }
    assert all[..|seen| + |jws|] == all && os[..|os|] == os;
  }

  /** The tests on the jetway at a position of the list. */
  method FilterAt(jws: seq<SamJw>, i: nat, ghost os: seq<Option<Candidate>>, plane: PlanePose, di: DoorInfo, refGen: nat,
                  m: Math, thr: real) returns (o: Option<Candidate>)
    requires i < |jws| && JudgedEach(os, jws, plane, di, refGen, m)
    ensures o == (if os[i].Some? && os[i].value.setup.z <= thr then os[i] else None)
  {
    o := Filter(jws[i], os[i], plane, di, refGen, m, thr);
  }

  /** One pass of the loop of `filter_candidates`: the next jetway's candidate, if it passed, goes to the buffer. */
  method FilterOne(buf: NearestBuf, o: Option<Candidate>, ghost jws: seq<SamJw>, ghost i: nat, ghost all: seq<SamJw>, ghost p: nat,
                   ghost os: seq<Option<Candidate>>, ghost h0: seq<Candidate>, thr: real, thrI: real, ghost trimmed: bool)
    returns (thr': real, ghost trimmed': bool)
    requires i < |jws| == |os| && p + |jws| == |all| && all[p..] == jws && NoDup(all)
    requires buf.Valid() && NoDup(JwsOf(buf.Held()))
    requires From(buf.Held(), all[..p + i])
    requires Filled(buf.Held(), h0, os[..i], thr, thrI, trimmed)
    requires o == (if os[i].Some? && os[i].value.setup.z <= thrI then os[i] else None)
    requires os[i].Some? ==> os[i].value.jw == jws[i]
    modifies buf`n, buf.slots
    ensures buf.Valid() && NoDup(JwsOf(buf.Held()))
    ensures From(buf.Held(), all[..p + i + 1])
    ensures Filled(buf.Held(), h0, os[..i + 1], thr, thr', trimmed')
  {
    assert all[p + i] == jws[i];
    NotEarlier(all, p + i);
    ghost var hi := buf.Held();
    ghost var t;
    thr', t := Offer(buf, o, all[..p + i], thrI);
    FilterStep(h0, hi, buf.Held(), os, i, o, thr, thrI, thr', trimmed, t);
    FromStep(hi, buf.Held(), all, p + i, o);
    trimmed' := trimmed || t;
  }

  /** Adding the candidate of the next jetway keeps the buffer's jetways among those seen so far. */
  lemma FromStep(h: seq<Candidate>, h': seq<Candidate>, all: seq<SamJw>, k: nat, o: Option<Candidate>)
    requires k < |all| && From(h, all[..k])
    requires forall c :: c in h' ==> c in h || Some(c) == o
    requires o.Some? ==> o.value.jw == all[k]
    ensures From(h', all[..k + 1])
  {
    assert all[..k + 1] == all[..k] + [all[k]];
  }

  /** The bookkeeping of one step of `filter_candidates`, on the buffer's contents before and after. */
  lemma FilterStep(h0: seq<Candidate>, h: seq<Candidate>, h': seq<Candidate>, os: seq<Option<Candidate>>, i: nat,
                   o: Option<Candidate>, thr: real, thrI: real, thr': real, trimmed: bool, t: bool)
    requires i < |os| && Filled(h, h0, os[..i], thr, thrI, trimmed)
    requires o == if os[i].Some? && os[i].value.setup.z <= thrI then os[i] else None
    requires forall c :: c in h' ==> c in h || Some(c) == o
    requires !t ==> h' == h + (if o.Some? then [o.value] else []) && thr' == thrI
    requires t ==> o.Some? && |h| + 1 == MaxNearest && |h'| == NearJwLimit
    ensures Filled(h', h0, os[..i + 1], thr, thr', trimmed || t)
  {
    assert os[..i + 1] == os[..i] + [os[i]] && os[..i + 1][..i] == os[..i];
  }

  /** Every prefix of the scenery lists flattens to a prefix of the whole. */
  lemma {:induction false} FlattenPrefix(ls: seq<seq<SamJw>>, i: nat)
    requires i <= |ls|
    ensures Flatten(ls[..i]) <= Flatten(ls)
    decreases |ls| - i
  {
    if i < |ls| {
      FlattenPrefix(ls, i + 1);
      assert ls[..i + 1][..i] == ls[..i];
      assert Flatten(ls[..i + 1]) == Flatten(ls[..i]) + ls[i];
    } else {
      assert ls[..i] == ls;
    }
  }

  /** Each scenery's list sits in the flattened lists right after those before it. */
  lemma FlattenSlice(ls: seq<seq<SamJw>>, i: nat)
    requires i < |ls|
    ensures |Flatten(ls[..i + 1])| == |Flatten(ls[..i])| + |ls[i]| <= |Flatten(ls)|
    ensures Flatten(ls)[|Flatten(ls[..i])|..|Flatten(ls[..i])| + |ls[i]|] == ls[i]
  {
    FlattenPrefix(ls, i + 1);
    assert ls[..i + 1][..i] == ls[..i];
    assert Flatten(ls[..i + 1]) == Flatten(ls[..i]) + ls[i];
    var lo := |Flatten(ls[..i])|;
    assert Flatten(ls)[..lo + |ls[i]|] == Flatten(ls[..i]) + ls[i];
  }

  /** The loop over the sceneries in `find_nearest_jws`, each filtered after those before it. */
  method FilterSceneries(buf: NearestBuf, sceneries: seq<seq<SamJw>>, ghost all: seq<SamJw>, ghost os: seq<Option<Candidate>>,
                         plane: PlanePose, di: DoorInfo, refGen: nat, m: Math, thr: real) returns (thr': real)
    requires buf.Valid() && buf.n == 0 && all == Flatten(sceneries) && NoDup(all)
    requires JudgedEach(os, all, plane, di, refGen, m) && Tagged(os, all)
    modifies buf`n, buf.slots
    ensures buf.Valid() && NoDup(JwsOf(buf.Held()))
    ensures forall c :: c in buf.Held() ==> c.jw in all && Some(c) in os
    ensures |Passed(os, thr)| < MaxNearest ==> (buf.Held() == Passed(os, thr) && thr' == thr)
    ensures |Passed(os, thr)| >= MaxNearest ==> buf.n >= NearJwLimit
  {
    thr' := thr;
    ghost var trimmed := false;
    assert os[..0] == [] && sceneries[..0] == [];
    FilledStart([], thr);
    for i := 0 to |sceneries|
      invariant |Flatten(sceneries[..i])| <= |all|
      invariant buf.Valid() && NoDup(JwsOf(buf.Held()))
      invariant From(buf.Held(), all[..|Flatten(sceneries[..i])|])
      invariant Filled(buf.Held(), [], os[..|Flatten(sceneries[..i])|], thr, thr', trimmed)
    {
      FlattenSlice(sceneries, i);
      thr', trimmed := FilterScenery(buf, sceneries[i], all, |Flatten(sceneries[..i])|, |Flatten(sceneries[..i + 1])|, os,
                                     plane, di, refGen, m, thr, thr', trimmed);
    }
    assert sceneries[..|sceneries|] == sceneries && all[..|all|] == all && os[..|os|] == os;
    FilledFresh(buf.Held(), os, thr, thr', trimmed);
  }

  /** One scenery's jetways in the loop of `find_nearest_jws`, the slice of the whole pool from `lo` to `hi`. */
  method FilterScenery(buf: NearestBuf, jws: seq<SamJw>, ghost all: seq<SamJw>, ghost lo: nat, ghost hi: nat,
                       ghost os: seq<Option<Candidate>>, plane: PlanePose, di: DoorInfo, refGen: nat, m: Math, thr: real,
                       thrI: real, ghost trimmed: bool)
    returns (thr': real, ghost trimmed': bool)
    requires hi == lo + |jws| <= |all| && all[lo..hi] == jws && NoDup(all)
    requires JudgedEach(os, all, plane, di, refGen, m) && Tagged(os, all)
    requires buf.Valid() && NoDup(JwsOf(buf.Held()))
    requires From(buf.Held(), all[..lo])
    requires Filled(buf.Held(), [], os[..lo], thr, thrI, trimmed)
    modifies buf`n, buf.slots
    ensures buf.Valid() && NoDup(JwsOf(buf.Held()))
    ensures From(buf.Held(), all[..hi])
    ensures Filled(buf.Held(), [], os[..hi], thr, thr', trimmed')
  {
    ghost var osi := os[lo..hi];
    PoolSlice(all, lo, hi, jws);
    JudgedEachSlice(os, all, lo, hi, plane, di, refGen, m);
    TaggedSlice(os, all, lo, hi);
    ghost var h0 := buf.Held();
    thr' := FilterCandidates(buf, jws, all[..lo], osi, plane, di, refGen, m, thrI);
    trimmed' := trimmed || |h0| + |Passed(osi, thr)| >= MaxNearest;
    ScenerySteps(h0, buf.Held(), os[..lo], osi, thr, thrI, thr', trimmed, trimmed');
    TakeSplit(os, lo, hi);
  }

  /** The pool up to a scenery's end is the pool before it followed by its jetways, still without duplicates. */
  lemma PoolSlice(all: seq<SamJw>, lo: nat, hi: nat, jws: seq<SamJw>)
    requires hi == lo + |jws| <= |all| && all[lo..hi] == jws && NoDup(all)
    ensures all[..hi] == all[..lo] + jws && NoDup(all[..lo] + jws)
  {
    assert all[..hi] == all[..lo] + jws;
    assert all == all[..hi] + all[hi..];
    NoDupPrefix(all[..hi], all[hi..]);
  }

  /** A prefix ending at `hi` is the prefix ending at `lo` followed by the slice between. */
  lemma TakeSplit<T>(s: seq<T>, lo: nat, hi: nat)
    requires lo <= hi <= |s|
    ensures s[..hi] == s[..lo] + s[lo..hi]
  {
  }

  /** The bookkeeping of one scenery in `find_nearest_jws`, on the buffer's contents before and after. */
  lemma ScenerySteps(h0: seq<Candidate>, h1: seq<Candidate>, done: seq<Option<Candidate>>, os: seq<Option<Candidate>>,
                     thr: real, thrI: real, thr': real, trimmed: bool, trimmed': bool)
    requires Filled(h0, [], done, thr, thrI, trimmed)
    requires forall c :: c in h1 ==> c in h0 || Some(c) in os
    requires |h0| + |Passed(os, thrI)| < MaxNearest ==> h1 == h0 + Passed(os, thrI) && thr' == thrI
    requires |h1| >= (if |h0| + |Passed(os, thrI)| < NearJwLimit then |h0| + |Passed(os, thrI)| else NearJwLimit)
    requires trimmed' == (trimmed || |h0| + |Passed(os, thr)| >= MaxNearest)
    ensures Filled(h1, [], done + os, thr, thr', trimmed')
  {
    SceneryFrom(h0, h1, done, os);
    PassedConcat(done, os, thr);
    assert [] + Passed(done, thr) == Passed(done, thr);
    assert [] + Passed(done + os, thr) == Passed(done + os, thr);
    if !trimmed' {
      assert h0 == Passed(done, thr) && thrI == thr;
      assert h1 == Passed(done, thr) + Passed(os, thr);
    }
  }

  /** After one scenery the buffer holds only what passed in it or before it. */
  lemma SceneryFrom(h0: seq<Candidate>, h1: seq<Candidate>, done: seq<Option<Candidate>>, os: seq<Option<Candidate>>)
    requires forall c :: c in h0 ==> Some(c) in done
    requires forall c :: c in h1 ==> c in h0 || Some(c) in os
    ensures forall c :: c in h1 ==> Some(c) in done + os
  {
  }

  /**
   * `find_nearest_jws`: a plane without doors gets 0 and nothing changes.
   * Otherwise, after the reference frame check, the jetways of every
   * scenery and then of the zero-config table are filtered against the
   * average door into the buffer, which then holds at most NEAR_JW_LIMIT
   * candidates, each what the filters make of a jetway of that pool, with
   * distinct jetways, in an order where none is less than its predecessor;
   * as long as fewer than MAX_NEAREST candidates pass the filters, these
   * are exactly the pool's candidates; their number is that of the pool's
   * candidates, capped at NEAR_JW_LIMIT.  The zero-config jetways among
   * them are named after their position.
   */
  method FindNearestJws(buf: NearestBuf, world: JwWorld, latR: real, lonR: real, doors: seq<DoorInfo>, plane: PlanePose,
                        sceneries: seq<seq<SamJw>>, ghost jws: seq<SamJw>, m: Math)
    returns (n: nat, ghost ranked: seq<Candidate>)
    requires buf.Valid() && world.Valid() && jws == Flatten(sceneries) + world.zcJws && NoDup(jws)
    modifies buf`n, buf.slots, world, (set j | j in jws)`name
    ensures |doors| == 0 ==> n == 0 && unchanged(world) && unchanged(buf, buf.slots)
    ensures |doors| > 0 ==>
      world.Valid() && world.latRef == latR && world.lonRef == lonR
      && world.refGen == old(RefGenAfter(world.refGen, world.latRef, world.lonRef, latR, lonR))
      && world.zcJws == (if old(world.zcRefGen) < world.refGen then [] else old(world.zcJws))
    ensures |doors| > 0 ==>
      buf.Valid() && n == buf.n <= NearJwLimit && NoDup(JwsOf(buf.Held()))
      && AdjacentOrdered(ranked) && n <= |ranked| && buf.Held() == ranked[..n]
    ensures |doors| > 0 ==> forall c :: c in buf.Held() ==>
      c.jw in old(NearestPool(world, latR, lonR, sceneries)) && Kept(c, plane, AvgDoor(doors), world.refGen, m)
    ensures |doors| > 0 && old(|OsCandidates(NearestPool(world, latR, lonR, sceneries), plane, AvgDoor(doors),
                                              RefGenAfter(world.refGen, world.latRef, world.lonRef, latR, lonR), m,
                                              FarThreshold)|) < MaxNearest ==>
      multiset(ranked) == old(multiset(OsCandidates(NearestPool(world, latR, lonR, sceneries), plane, AvgDoor(doors),
                                                    RefGenAfter(world.refGen, world.latRef, world.lonRef, latR, lonR), m,
                                                    FarThreshold)))
    ensures |doors| > 0 ==>
      var k := old(|OsCandidates(NearestPool(world, latR, lonR, sceneries), plane, AvgDoor(doors),
                                 RefGenAfter(world.refGen, world.latRef, world.lonRef, latR, lonR), m, FarThreshold)|);
      n == if k < NearJwLimit then k else NearJwLimit
    ensures |doors| > 0 ==> forall k :: 0 <= k < n && buf.Held()[k].jw.isZcJw ==>
      buf.Held()[k].jw.name == ZcName(buf.Held()[k].jw.standId, k)
    ensures forall j :: j in jws && j.name != old(j.name) ==>
      |doors| > 0 && j.isZcJw && j in JwsOf(buf.Held())
  {
    if |doors| == 0 {
      return 0, [];
    }
    ghost var pool := NearestPool(world, latR, lonR, sceneries);
    ghost var want := OsCandidates(pool, plane, AvgDoor(doors), RefGenAfter(world.refGen, world.latRef, world.lonRef, latR, lonR),
                                   m, FarThreshold);
    if pool != Flatten(sceneries) + world.zcJws {
      NoDupPrefix(Flatten(sceneries), world.zcJws);
      assert pool == Flatten(sceneries) + [];
    }
    assert forall j :: j in pool ==> j in jws;
    ranked := RankNamed(buf, world, latR, lonR, doors, plane, sceneries, pool, want, jws, m);
    n := buf.n;
  }

  /** `find_nearest_jws` once the plane has doors: gathering, then naming. */
  method RankNamed(buf: NearestBuf, world: JwWorld, latR: real, lonR: real, doors: seq<DoorInfo>, plane: PlanePose,
                   sceneries: seq<seq<SamJw>>, ghost pool: seq<SamJw>, ghost want: seq<Candidate>,
                   ghost jws: seq<SamJw>, m: Math)
    returns (ghost ranked: seq<Candidate>)
    requires buf.Valid() && world.Valid() && |doors| > 0
    requires pool == NearestPool(world, latR, lonR, sceneries) && NoDup(pool) && forall j :: j in pool ==> j in jws
    requires want == OsCandidates(pool, plane, AvgDoor(doors), RefGenAfter(world.refGen, world.latRef, world.lonRef, latR, lonR),
                                  m, FarThreshold)
    modifies buf`n, buf.slots, world, (set j | j in jws)`name
    ensures world.Valid() && world.latRef == latR && world.lonRef == lonR
      && world.refGen == old(RefGenAfter(world.refGen, world.latRef, world.lonRef, latR, lonR))
      && world.zcJws == (if old(world.zcRefGen) < world.refGen then [] else old(world.zcJws))
    ensures buf.Valid() && buf.n <= NearJwLimit && NoDup(JwsOf(buf.Held())) && AdjacentOrdered(ranked)
      && buf.n <= |ranked| && buf.Held() == ranked[..buf.n]
    ensures forall c :: c in buf.Held() ==> c.jw in pool && Kept(c, plane, AvgDoor(doors), world.refGen, m)
    ensures |want| < MaxNearest ==> multiset(ranked) == multiset(want)
    ensures buf.n == if |want| < NearJwLimit then |want| else NearJwLimit
    ensures forall k :: 0 <= k < buf.n && buf.Held()[k].jw.isZcJw ==>
      buf.Held()[k].jw.name == ZcName(buf.Held()[k].jw.standId, k)
    ensures forall j :: j in jws && j.name != old(j.name) ==> j.isZcJw && j in JwsOf(buf.Held())
  {
    ranked := GatherOs(buf, world, latR, lonR, doors, plane, sceneries, pool, want, m);
    assert forall j :: j in jws ==> j.name == old(j.name);
    JwsWithin(buf.Held(), jws);
    NameHeld(buf, jws, plane, AvgDoor(doors), world.refGen, m);
  }

  /**
   * Names the zero-config jetways held in `buf` after their position; the
   * buffer and the filters' verdicts on what it holds stay as they were.
   */
  method NameHeld(buf: NearestBuf, ghost jws: seq<SamJw>, plane: PlanePose, di: DoorInfo, refGen: nat, m: Math)
    requires buf.Valid() && NoDup(JwsOf(buf.Held())) && forall j :: j in JwsOf(buf.Held()) ==> j in jws
    requires forall c :: c in buf.Held() ==> Kept(c, plane, di, refGen, m)
    modifies (set j | j in JwsOf(buf.Held()))`name
    ensures buf.Valid() && buf.Held() == old(buf.Held())
    ensures forall c :: c in buf.Held() ==> Kept(c, plane, di, refGen, m)
    ensures forall k :: 0 <= k < buf.n && buf.Held()[k].jw.isZcJw ==>
      buf.Held()[k].jw.name == ZcName(buf.Held()[k].jw.standId, k)
    ensures forall j :: j in jws && j.name != old(j.name) ==> j.isZcJw && j in JwsOf(buf.Held())
  {
    NameByIndex(buf.Held());
  }

  /** The jetways of candidates drawn from `pool` lie in `pool`. */
  lemma JwsWithin(cs: seq<Candidate>, pool: seq<SamJw>)
    requires forall c :: c in cs ==> c.jw in pool
    ensures forall j :: j in JwsOf(cs) ==> j in pool
  {
    forall j | j in JwsOf(cs)
      ensures j in pool
    {
      var k :| 0 <= k < |cs| && JwsOf(cs)[k] == j;
      assert cs[k] in cs;
    }
  }

  /**
   * The part of `find_nearest_jws` before the naming: the frame check,
   * then the filtering and the final sort over the pool it leaves.
   */
  method GatherOs(buf: NearestBuf, world: JwWorld, latR: real, lonR: real, doors: seq<DoorInfo>, plane: PlanePose,
                  sceneries: seq<seq<SamJw>>, ghost pool: seq<SamJw>, ghost want: seq<Candidate>, m: Math)
    returns (ghost ranked: seq<Candidate>)
    requires buf.Valid() && world.Valid() && |doors| > 0
    requires pool == NearestPool(world, latR, lonR, sceneries) && NoDup(pool)
    requires want == OsCandidates(pool, plane, AvgDoor(doors), RefGenAfter(world.refGen, world.latRef, world.lonRef, latR, lonR),
                                  m, FarThreshold)
    modifies buf`n, buf.slots, world
    ensures world.Valid() && world.latRef == latR && world.lonRef == lonR
      && world.refGen == old(RefGenAfter(world.refGen, world.latRef, world.lonRef, latR, lonR))
      && world.zcJws == (if old(world.zcRefGen) < world.refGen then [] else old(world.zcJws))
    ensures buf.Valid() && buf.n <= NearJwLimit && NoDup(JwsOf(buf.Held())) && AdjacentOrdered(ranked)
      && buf.n <= |ranked| && buf.Held() == ranked[..buf.n]
    ensures forall c :: c in buf.Held() ==> c.jw in pool && Kept(c, plane, AvgDoor(doors), world.refGen, m)
    ensures |want| < MaxNearest ==> multiset(ranked) == multiset(want)
    ensures buf.n == if |want| < NearJwLimit then |want| else NearJwLimit
  {
    ghost var g := RefGenAfter(world.refGen, world.latRef, world.lonRef, latR, lonR);
    world.CheckRefFrameShift(latR, lonR);
    assert unchanged(pool);
    assert want == OsCandidates(pool, plane, AvgDoor(doors), g, m, FarThreshold);
    assert pool == Flatten(sceneries) + world.zcJws && g == world.refGen;
    ranked := FilterRanked(buf, sceneries, world.zcJws, pool, want, doors, plane, world.refGen, m);
  }

  /** Average door, filtering and final sort of `find_nearest_jws`, over the world as the frame check left it. */
  method FilterRanked(buf: NearestBuf, sceneries: seq<seq<SamJw>>, zc: seq<SamJw>, ghost pool: seq<SamJw>,
                      ghost want: seq<Candidate>, doors: seq<DoorInfo>, plane: PlanePose, refGen: nat, m: Math)
    returns (ghost ranked: seq<Candidate>)
    requires buf.Valid() && pool == Flatten(sceneries) + zc && NoDup(pool) && |doors| > 0
    requires want == OsCandidates(pool, plane, AvgDoor(doors), refGen, m, FarThreshold)
    modifies buf`n, buf.slots
    ensures buf.Valid() && buf.n <= NearJwLimit && NoDup(JwsOf(buf.Held())) && AdjacentOrdered(ranked)
      && buf.n <= |ranked| && buf.Held() == ranked[..buf.n]
    ensures forall c :: c in buf.Held() ==> c.jw in pool && Kept(c, plane, AvgDoor(doors), refGen, m)
    ensures |want| < MaxNearest ==> multiset(ranked) == multiset(want)
    ensures buf.n == if |want| < NearJwLimit then |want| else NearJwLimit
  {
    FilterAveraged(buf, sceneries, zc, pool, want, doors, plane, refGen, m);
    ghost var held := buf.Held();
    ranked := buf.FinalSort();
    SortedFrom(held, ranked, buf.n);
  }

  /** The average door, then both filter passes into the cleared buffer, before the final sort. */
  method FilterAveraged(buf: NearestBuf, sceneries: seq<seq<SamJw>>, zc: seq<SamJw>, ghost pool: seq<SamJw>,
                        ghost want: seq<Candidate>, doors: seq<DoorInfo>, plane: PlanePose, refGen: nat, m: Math)
    requires buf.Valid() && pool == Flatten(sceneries) + zc && NoDup(pool) && |doors| > 0
    requires want == OsCandidates(pool, plane, AvgDoor(doors), refGen, m, FarThreshold)
    modifies buf`n, buf.slots
    ensures buf.Valid() && NoDup(JwsOf(buf.Held()))
    ensures forall c :: c in buf.Held() ==> c.jw in pool && Kept(c, plane, AvgDoor(doors), refGen, m)
    ensures |want| < MaxNearest ==> buf.Held() == want
    ensures |want| >= MaxNearest ==> buf.n >= NearJwLimit
  {
    var di := AverageDoor(doors);
    ghost var os := JudgedAll(pool, plane, di, refGen, m);
    JudgedAllEach(pool, plane, di, refGen, m);
    assert want == Passed(os, FarThreshold);
    buf.Clear();
    FilterPool(buf, sceneries, zc, pool, os, plane, di, refGen, m);
    HeldKept(buf.Held(), pool, os, plane, di, refGen, m);
  }

  /** Candidates found among the verdicts on a list are kept for their own jetways of the list. */
  lemma HeldKept(held: seq<Candidate>, jws: seq<SamJw>, os: seq<Option<Candidate>>, plane: PlanePose, di: DoorInfo,
                 refGen: nat, m: Math)
    requires JudgedEach(os, jws, plane, di, refGen, m) && Tagged(os, jws)
    requires forall c :: c in held ==> Some(c) in os
    ensures forall c :: c in held ==> c.jw in jws && Kept(c, plane, di, refGen, m)
  {
    forall c | c in held
      ensures c.jw in jws && Kept(c, plane, di, refGen, m)
    {
      var k :| 0 <= k < |os| && os[k] == Some(c);
      assert os[k] == Judged(jws[k], plane, di, refGen, m);
    }
  }

  /** What a sort keeps of the buffer, a prefix of a permutation, was in the buffer, with distinct jetways. */
  lemma SortedFrom(held: seq<Candidate>, ranked: seq<Candidate>, n: nat)
    requires NoDup(JwsOf(held)) && n <= |ranked|
    requires multiset(ranked) == multiset(held) && multiset(JwsOf(ranked)) == multiset(JwsOf(held))
    ensures NoDup(JwsOf(ranked[..n])) && forall c :: c in ranked[..n] ==> c in held
  {
    PrefixSub(ranked, n);
    NoDupSub(ranked[..n], held);
    forall c | c in ranked[..n]
      ensures c in held
    {
      assert c in multiset(ranked);
    }
  }

  /** The two filter passes of `find_nearest_jws`, the sceneries' jetways, then the zero-config ones, into the cleared buffer. */
  method FilterPool(buf: NearestBuf, sceneries: seq<seq<SamJw>>, zc: seq<SamJw>, ghost pool: seq<SamJw>,
                    ghost os: seq<Option<Candidate>>, plane: PlanePose, di: DoorInfo, refGen: nat, m: Math)
    requires buf.Valid() && buf.n == 0 && pool == Flatten(sceneries) + zc && NoDup(pool)
    requires JudgedEach(os, pool, plane, di, refGen, m) && Tagged(os, pool)
    modifies buf`n, buf.slots
    ensures buf.Valid() && NoDup(JwsOf(buf.Held()))
    ensures forall c :: c in buf.Held() ==> Some(c) in os
    ensures |Passed(os, FarThreshold)| < MaxNearest ==> buf.Held() == Passed(os, FarThreshold)
    ensures |Passed(os, FarThreshold)| >= MaxNearest ==> buf.n >= NearJwLimit
  {
    ghost var all := Flatten(sceneries);
    NoDupPrefix(all, zc);
    JudgedSplit(os, all, zc, plane, di, refGen, m);
    TaggedSplit(os, all, zc);
    PassedSplit(os, |all|, FarThreshold);
    var thr := FilterSceneries(buf, sceneries, all, os[..|all|], plane, di, refGen, m, FarThreshold);
    thr := FilterCandidates(buf, zc, all, os[|all|..], plane, di, refGen, m, thr);
  }

  /** The verdicts on two lists one after the other split into the verdicts on each. */
  lemma JudgedSplit(os: seq<Option<Candidate>>, a: seq<SamJw>, b: seq<SamJw>, plane: PlanePose, di: DoorInfo,
                    refGen: nat, m: Math)
    requires JudgedEach(os, a + b, plane, di, refGen, m)
    ensures JudgedEach(os[..|a|], a, plane, di, refGen, m) && JudgedEach(os[|a|..], b, plane, di, refGen, m)
  {
    ghost var ab := a + b;
    JudgedEachSlice(os, ab, 0, |a|, plane, di, refGen, m);
    JudgedEachSlice(os, ab, |a|, |ab|, plane, di, refGen, m);
    assert ab[0..|a|] == a && ab[|a|..|ab|] == b;
    assert os[0..|a|] == os[..|a|] && os[|a|..|ab|] == os[|a|..];
  }

  /** The tags of two lists one after the other split into the tags of each. */
  lemma TaggedSplit(os: seq<Option<Candidate>>, a: seq<SamJw>, b: seq<SamJw>)
    requires Tagged(os, a + b)
    ensures Tagged(os[..|a|], a) && Tagged(os[|a|..], b)
  {
    ghost var ab := a + b;
    TaggedSlice(os, ab, 0, |a|);
    TaggedSlice(os, ab, |a|, |ab|);
    assert ab[0..|a|] == a && ab[|a|..|ab|] == b;
    assert os[0..|a|] == os[..|a|] && os[|a|..|ab|] == os[|a|..];
  }

  /** What passes of a list is what passes of its front followed by what passes of its back. */
  lemma PassedSplit(os: seq<Option<Candidate>>, k: nat, thr: real)
    requires k <= |os|
    ensures Passed(os, thr) == Passed(os[..k], thr) + Passed(os[k..], thr)
  {
    assert os == os[..k] + os[k..];
    PassedConcat(os[..k], os[k..], thr);
  }

  /**
   * The naming loop of `find_nearest_jws`: a zero-config jetway is named
   * after the position of its candidate in the buffer, counting all
   * candidates; other jetways keep their names.
   */
  method NameByIndex(cs: seq<Candidate>)
    requires NoDup(JwsOf(cs))
    modifies (set j | j in JwsOf(cs))`name
    ensures forall k :: 0 <= k < |cs| ==>
      cs[k].jw.name == if cs[k].jw.isZcJw then ZcName(cs[k].jw.standId, k) else old(cs[k].jw.name)
    ensures forall j :: j in JwsOf(cs) && j.name != old(j.name) ==> j.isZcJw
  {
    for p := 0 to |cs|
      invariant forall k :: 0 <= k < |cs| ==>
        cs[k].jw.name == if k < p && cs[k].jw.isZcJw then ZcName(cs[k].jw.standId, k) else old(cs[k].jw.name)
    {
      forall k | 0 <= k < |cs| && k != p
        ensures cs[k].jw != cs[p].jw
      {
        if k < p {
          NoDupDistinct(JwsOf(cs), k, p);
        } else {
          NoDupDistinct(JwsOf(cs), p, k);
        }
      }
      var jw := cs[p].jw;
      assert jw == JwsOf(cs)[p];
      if jw.isZcJw {
        jw.name := ZcName(jw.standId, p);
      }
    }
    forall j | j in JwsOf(cs) && j.name != old(j.name)
      ensures j.isZcJw
    {
      var k :| 0 <= k < |cs| && JwsOf(cs)[k] == j;
    }
  }
}
