/**
 * The byte areas of Traffic Global's datarefs: strings laid end to end,
 * each followed by NUL, as the plugin's `strlen`-and-skip walk reads
 * them.  Splitting and joining are inverse, and the walk's position is
 * described by `WalkAt`.
 */
module ByteAreas {
  import opened Strings

  /** A byte area whose last byte is NUL (or that is empty). */
  predicate Terminated(a: seq<char>)
  {
    a == [] || a[|a| - 1] == '\0'
  }

  /** The NUL-separated strings of a byte area, as repeated `strlen` and skip walks it. */
  function Split(a: seq<char>): (r: seq<string>)
    ensures |r| == 0 <==> a == []
    ensures forall k :: 0 <= k < |r| ==> '\0' !in r[k]
    decreases |a|
  {
    if a == [] then []
    else
      var s := CStr(a);
      if |s| == |a| then [s] else [s] + Split(a[|s| + 1..])
  }

  /** The byte area holding the given strings, each followed by its NUL. */
  function Join(fs: seq<string>): (a: seq<char>)
    ensures Terminated(a)
    ensures a == [] <==> fs == []
  {
    if fs == [] then [] else fs[0] + ['\0'] + Join(fs[1..])
  }

  /** `strlen` on a text followed by NUL finds the text. */
  lemma {:induction false} CStrOfTerminated(x: string, y: seq<char>)
    requires '\0' !in x
    ensures CStr(x + ['\0'] + y) == x
  {
    if x != [] {
      assert (x + ['\0'] + y)[1..] == x[1..] + ['\0'] + y;
      CStrOfTerminated(x[1..], y);
    }
  }

  /** In a terminated area the first string ends before the end, and the rest is terminated again. */
  lemma SplitHead(a: seq<char>)
    requires Terminated(a) && a != []
    ensures |CStr(a)| < |a| && a[|CStr(a)|] == '\0'
    ensures Terminated(a[|CStr(a)| + 1..])
    ensures Split(a) == [CStr(a)] + Split(a[|CStr(a)| + 1..])
  {
  }

  /**
   * The walk over a terminated byte area has reached string i: the bytes
   * left, `rest`, are terminated and split into the strings from i on.
   */
  predicate WalkAt(a: seq<char>, rest: seq<char>, i: nat)
  {
    Terminated(rest) && i <= |Split(a)| && Split(rest) == Split(a)[i..]
  }

  /** Skipping string i and its NUL reaches string i + 1. */
  lemma Advance(a: seq<char>, rest: seq<char>, i: nat, next: seq<char>)
    requires WalkAt(a, rest, i) && rest != []
    requires |CStr(rest)| < |rest| && next == rest[|CStr(rest)| + 1..]
    ensures i < |Split(a)| && CStr(rest) == Split(a)[i]
    ensures WalkAt(a, next, i + 1)
  {
    SplitHead(rest);
    var fs := Split(a);
    assert fs[i..] == [CStr(rest)] + Split(next);
    assert fs[i..][0] == fs[i];
    assert fs[i + 1..] == fs[i..][1..];
  }

  /** In a terminated area the first string ends before the end. */
  lemma WalkHead(a: seq<char>, rest: seq<char>, i: nat)
    requires WalkAt(a, rest, i) && rest != []
    ensures |CStr(rest)| < |rest|
  {
    SplitHead(rest);
  }

  /**
   * One step of the walk: `strlen` of the bytes left gives string i, and
   * the walk moves past it and its NUL.
   */
  method NextString(a: seq<char>, rest: seq<char>, ghost i: nat) returns (s: string, next: seq<char>)
    requires WalkAt(a, rest, i) && rest != []
    ensures i < |Split(a)| && s == Split(a)[i]
    ensures WalkAt(a, next, i + 1) && |next| < |rest|
  {
    s := CStr(rest);
    WalkHead(a, rest, i);
    next := rest[|s| + 1..];
    Advance(a, rest, i, next);
  }

  /** With no byte left the walk has seen every string. */
  lemma WalkEnd(a: seq<char>, i: nat)
    requires WalkAt(a, [], i)
    ensures i == |Split(a)|
  {
  }

  /** The walk starts at string 0. */
  lemma WalkStart(a: seq<char>)
    requires Terminated(a)
    ensures WalkAt(a, a, 0)
  {
  }

  /** Splitting a terminated area and joining the pieces gives the area back. */
  lemma {:induction false} JoinSplit(a: seq<char>)
    requires Terminated(a)
    ensures Join(Split(a)) == a
    decreases |a|
  {
    if a != [] {
      SplitHead(a);
      var s := CStr(a);
      var rest := a[|s| + 1..];
      var fs := Split(a);
      assert fs[0] == s && fs[1..] == Split(rest);
      JoinSplit(rest);
      Reassemble(a, |s|);
    }
  }

  lemma Reassemble(a: seq<char>, k: nat)
    requires k < |a|
    ensures a == a[..k] + [a[k]] + a[k + 1..]
  {
  }

  /** Joining strings without NUL and splitting the area gives the strings back. */
  lemma {:induction false} SplitJoin(fs: seq<string>)
    requires forall k :: 0 <= k < |fs| ==> '\0' !in fs[k]
    ensures Split(Join(fs)) == fs
  {
    if fs != [] {
      var a := Join(fs);
      CStrOfTerminated(fs[0], Join(fs[1..]));
      assert a[|fs[0]| + 1..] == Join(fs[1..]);
      SplitJoin(fs[1..]);
    }
  }
}
