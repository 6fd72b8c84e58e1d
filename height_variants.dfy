/**
 * tools/gen_height_variants.py: the generator of the height variants of the
 * Safedock T2-24 docking guidance object.
 *
 * `gen_variant` copies a template object file line by line.  Lines inside a
 * `# NO-openSAM_begin` ... `# NO-openSAM_end` region (nesting counted) are
 * dropped, "AutoDGS" is renamed to "opensam", every LOD line is wrapped in
 * an animation block (`ANIM_end` before it unless it is the first one,
 * `ANIM_begin` after it), optionally followed by a 180 degree rotation and a
 * vertical translation, and a closing `ANIM_end` is always appended.
 * `check` reads the library manifest and reports the exported paths that do
 * not exist.  Heights are integer hundredths of a metre; the disk is a set of
 * paths.
 */
module HeightVariants {
  import opened Wrappers
  import opened Strings

  const NoBegin := "# NO-openSAM_begin"
  const NoEnd := "# NO-openSAM_end"
  const BeginLine := "ANIM_begin\n"
  const EndLine := "ANIM_end\n"
  /** The line appended after the last line of the template. */
  const FinalLine := "\nANIM_end\n"
  const RotateLine := "    ANIM_rotate 0 1 0 180 180 0 1 no_ref\n"

  // ---------------------------------------------------------------------
  // Number formatting
  // ---------------------------------------------------------------------

  /** Python `f"{dh:0.3f}"` for a height of h hundredths of a metre. */
  function Fixed3(h: int): (r: string)
    ensures forall k :: 0 <= k < |r| ==> !IsSpace(r[k])
    ensures |r| > 0
  {
    (if h < 0 then "-" else "") + UnsignedFixed3(if h < 0 then -h else h)
  }

  predicate AllDigits(s: string)
  {
    forall k :: 0 <= k < |s| ==> IsDigit(s[k])
  }

  /** Reads digits, a point and exactly three decimals, in thousandths. */
  function ParseUnsignedFixed3(body: string): Option<nat>
  {
    if |body| < 5 || body[|body| - 4] != '.' then None
    else
      var whole := body[..|body| - 4];
      var frac := body[|body| - 3..];
      if !AllDigits(whole) || !AllDigits(frac) then None
      else Some(DecValue(whole) * 1000 + DecValue(frac))
  }

  /** Reads a decimal with an optional '-' and exactly three decimals, in thousandths. */
  function ParseFixed3(s: string): Option<int>
  {
    if |s| > 0 && s[0] == '-' then
      match ParseUnsignedFixed3(s[1..])
      case None => None
      case Some(v) => Some(-(v as int))
    else
      match ParseUnsignedFixed3(s)
      case None => None
      case Some(v) => Some(v)
  }

  /** The parser reads a digit string, a point and three digits. */
  lemma ParseUnsigned(whole: string, frac: string)
    requires |whole| > 0 && AllDigits(whole) && |frac| == 3 && AllDigits(frac)
    ensures ParseUnsignedFixed3(whole + "." + frac) == Some(DecValue(whole) * 1000 + DecValue(frac))
  {
    SplitPoint(whole, frac);
  }

  lemma SplitPoint(whole: string, frac: string)
    requires |frac| == 3
    ensures var body := whole + "." + frac;
      |body| >= 4 && body[|body| - 4] == '.' && body[..|body| - 4] == whole && body[|body| - 3..] == frac
  {
    var body := whole + "." + frac;
    assert |body| - 4 == |whole|;
    assert body[..|whole|] == whole;
    assert body[|whole| + 1..] == frac;
  }

  lemma {:induction false} DecValue3(s: string)
    requires |s| == 3 && AllDigits(s)
    ensures DecValue(s) == 100 * ((s[0] as int) - ('0' as int)) + 10 * ((s[1] as int) - ('0' as int)) + ((s[2] as int) - ('0' as int))
  {
    var s2 := s[..2];
    var s1 := s2[..1];
    assert s1[..0] == [];
    assert DecValue(s1) == (s[0] as int) - ('0' as int);
    assert DecValue(s2) == 10 * DecValue(s1) + ((s[1] as int) - ('0' as int));
  }

  /** The three decimals of a hundredths value read back as ten times its last two digits. */
  lemma FracValue(a: nat)
    ensures AllDigits([DigitChar(a % 100 / 10), DigitChar(a % 10), '0'])
    ensures DecValue([DigitChar(a % 100 / 10), DigitChar(a % 10), '0']) == a % 100 * 10
  {
    var frac := [DigitChar(a % 100 / 10), DigitChar(a % 10), '0'];
    DecValue3(frac);
    assert a % 100 == a % 100 / 10 * 10 + a % 10;
  }

  /** The unsigned text of a hundredths value, three decimals. */
  function UnsignedFixed3(a: nat): string
  {
    NatToDec(a / 100) + "." + [DigitChar(a % 100 / 10), DigitChar(a % 10), '0']
  }

  lemma UnsignedFixed3RoundTrip(a: nat)
    ensures ParseUnsignedFixed3(UnsignedFixed3(a)) == Some(10 * a)
    ensures UnsignedFixed3(a)[0] != '-'
  {
    var whole := NatToDec(a / 100);
    var frac := [DigitChar(a % 100 / 10), DigitChar(a % 10), '0'];
    DecRoundTrip(a / 100);
    FracValue(a);
    ParseUnsigned(whole, frac);
    assert a / 100 * 1000 + a % 100 * 10 == 10 * a;
    assert UnsignedFixed3(a)[0] == whole[0];
  }

  /** The three-decimal text of a height reads back as the same height. */
  lemma Fixed3RoundTrip(h: int)
    ensures ParseFixed3(Fixed3(h)) == Some(10 * h)
  {
    var a := if h < 0 then -h else h;
    var body := UnsignedFixed3(a);
    UnsignedFixed3RoundTrip(a);
    if h < 0 {
      assert Fixed3(h) == "-" + body;
      assert ("-" + body)[1..] == body;
    } else {
      assert Fixed3(h) == body;
    }
  }

  predicate NoSpace(f: string)
  {
    forall k :: 0 <= k < |f| ==> !IsSpace(f[k])
  }

  predicate AllSpace(sp: string)
  {
    forall k :: 0 <= k < |sp| ==> IsSpace(sp[k])
  }

  /** Fields each followed by its separator. */
  function Layout(fields: seq<string>, seps: seq<string>): string
    requires |fields| == |seps|
  {
    if fields == [] then "" else fields[0] + (seps[0] + Layout(fields[1..], seps[1..]))
  }

  /** Split on white space, a layout of non-blank fields reads back as its fields. */
  lemma {:induction false} WordsLayout(fields: seq<string>, seps: seq<string>)
    requires |fields| == |seps|
    requires forall i :: 0 <= i < |fields| ==> |fields[i]| > 0 && NoSpace(fields[i])
    requires forall i :: 0 <= i < |seps| ==> |seps[i]| > 0 && AllSpace(seps[i])
    ensures Words(Layout(fields, seps)) == fields
  {
    if fields != [] {
      WordsLayout(fields[1..], seps[1..]);
      WordsField(fields[0], seps[0], Layout(fields[1..], seps[1..]));
    }
  }

  /** The fields of the translation directive: the height in the 2nd and 5th numeric slots. */
  function TransFields(h: int): seq<string>
  {
    ["ANIM_trans", "0.0000", Fixed3(h), "0.0000", "0.0000", Fixed3(h), "0.0000", "0", "0", "no_ref"]
  }

  const TransSeps := ["\t   ", "    ", "    ", "\t   ", "    ", "    ", "\t", " ", "\t", "\n"]

  /**
   * The translation line of the script, `"    ANIM_trans\t   0.0000    {dh}    0.0000\t   0.0000    {dh}    0.0000\t0 0\tno_ref\n"`,
   * written as its fields and the white space after each.
   */
  function TransLine(h: int): string
  {
    "    " + Layout(TransFields(h), TransSeps)
  }

  /** Split on white space, the translation line reads as its fields, and both height slots read back as the height. */
  lemma TransLineFields(h: int)
    ensures Words(TransLine(h)) == TransFields(h)
    ensures ParseFixed3(Words(TransLine(h))[2]) == Some(10 * h)
    ensures ParseFixed3(Words(TransLine(h))[5]) == Some(10 * h)
  {
    var fs := TransFields(h);
    TransWords(h);
    TransFieldsAt(h);
    Fixed3RoundTrip(h);
  }

  /** Both height slots of the translation directive hold the height. */
  lemma TransFieldsAt(h: int)
    ensures |TransFields(h)| == 10 && TransFields(h)[2] == Fixed3(h) && TransFields(h)[5] == Fixed3(h)
  {
  }

  /** Split on white space, the translation line reads as its fields. */
  lemma TransWords(h: int)
    ensures Words(TransLine(h)) == TransFields(h)
  {
    TransLayoutOk(h);
    WordsLayout(TransFields(h), TransSeps);
    IndentIsSpace();
    WordsSkipSpaces("    ", Layout(TransFields(h), TransSeps));
  }

  /** The translation directive's fields are non-blank words and its separators are white space. */
  lemma TransLayoutOk(h: int)
    ensures |TransFields(h)| == |TransSeps|
    ensures forall i :: 0 <= i < |TransSeps| ==> |TransSeps[i]| > 0 && AllSpace(TransSeps[i])
    ensures forall i :: 0 <= i < |TransFields(h)| ==> |TransFields(h)[i]| > 0 && NoSpace(TransFields(h)[i])
  {
    var fs := TransFields(h);
    assert NoSpace(Fixed3(h));
    assert forall i :: 0 <= i < 10 ==> |fs[i]| > 0 && NoSpace(fs[i]);
  }

  lemma IndentIsSpace()
    ensures forall k :: 0 <= k < 4 ==> IsSpace("    "[k])
  {
  }

  // ---------------------------------------------------------------------
  // The exclusion filter
  // ---------------------------------------------------------------------

  /** The exclusion nesting counter after line l. */
  function NextDepth(d: int, l: string): int
  {
    if Contains(l, NoEnd) then d - 1 else if Contains(l, NoBegin) then d + 1 else d
  }

  /** The nesting counter after the lines ls, starting from d. */
  function DepthAfter(ls: seq<string>, d: int): int
  {
    if ls == [] then d else NextDepth(DepthAfter(ls[..|ls| - 1], d), ls[|ls| - 1])
  }

  /** Line l is dropped when the counter before it is d: an end marker, or inside a region. */
  predicate Dropped(d: int, l: string)
  {
    Contains(l, NoEnd) || NextDepth(d, l) > 0
  }

  /** The template lines that survive the exclusion filter, in order, as read. */
  function Kept(ls: seq<string>, d: int): seq<string>
  {
    if ls == [] then []
    else
      var init := ls[..|ls| - 1];
      Kept(init, d) + (if Dropped(DepthAfter(init, d), ls[|ls| - 1]) then [] else [ls[|ls| - 1]])
  }

  /** Every kept line is a template line, and no end marker is ever kept. */
  lemma {:induction false} KeptFromTemplate(ls: seq<string>, d: int)
    ensures forall l :: l in Kept(ls, d) ==> l in ls && !Contains(l, NoEnd)
  {
    if ls != [] {
      KeptFromTemplate(ls[..|ls| - 1], d);
    }
  }

  predicate NoMarkers(ls: seq<string>)
  {
    forall k :: 0 <= k < |ls| ==> !Contains(ls[k], NoBegin) && !Contains(ls[k], NoEnd)
  }

  /** Without markers, outside any region, every line is kept. */
  lemma {:induction false} KeptPlain(ls: seq<string>, d: int)
    requires NoMarkers(ls) && d <= 0
    ensures Kept(ls, d) == ls && DepthAfter(ls, d) == d
  {
    if ls != [] {
      KeptPlain(ls[..|ls| - 1], d);
      assert ls == ls[..|ls| - 1] + [ls[|ls| - 1]];
    }
  }

  /** Filtering a concatenation filters the second part from the counter the first part leaves. */
  lemma {:induction false} KeptAppend(a: seq<string>, b: seq<string>, d: int)
    ensures DepthAfter(a + b, d) == DepthAfter(b, DepthAfter(a, d))
    ensures Kept(a + b, d) == Kept(a, d) + Kept(b, DepthAfter(a, d))
  {
    if b == [] {
      assert a + b == a;
    } else {
      var b' := b[..|b| - 1];
      assert (a + b)[..|a + b| - 1] == a + b';
      assert (a + b)[|a + b| - 1] == b[|b| - 1];
      KeptAppend(a, b', d);
    }
  }

  lemma KeptOne(l: string, d: int)
    ensures Kept([l], d) == (if Dropped(d, l) then [] else [l])
    ensures DepthAfter([l], d) == NextDepth(d, l)
  {
    assert [l][..0] == [];
  }

  /** A marked region with no markers inside is dropped whole, begin and end markers included. */
  lemma KeptRegion(pre: seq<string>, b: string, mid: seq<string>, e: string, post: seq<string>)
    requires NoMarkers(pre) && NoMarkers(mid)
    requires Contains(b, NoBegin) && !Contains(b, NoEnd) && Contains(e, NoEnd)
    ensures Kept(pre + [b] + mid + [e] + post, 0) == pre + Kept(post, 0)
  {
    var s1 := pre + [b];
    var s2 := s1 + mid;
    var s3 := s2 + [e];
    KeptPlain(pre, 0);
    KeptOne(b, 0);
    KeptAppend(pre, [b], 0);
    assert Kept(s1, 0) == pre && DepthAfter(s1, 0) == 1;
    KeptInside(mid, 1);
    KeptAppend(s1, mid, 0);
    assert Kept(s2, 0) == pre && DepthAfter(s2, 0) == 1;
    KeptOne(e, 1);
    KeptAppend(s2, [e], 0);
    assert Kept(s3, 0) == pre && DepthAfter(s3, 0) == 0;
    KeptAppend(s3, post, 0);
  }

  /** Inside a region, lines without markers are dropped and leave the counter alone. */
  lemma {:induction false} KeptInside(ls: seq<string>, d: int)
    requires NoMarkers(ls) && d > 0
    ensures Kept(ls, d) == [] && DepthAfter(ls, d) == d
  {
    if ls != [] {
      KeptInside(ls[..|ls| - 1], d);
    }
  }

  // ---------------------------------------------------------------------
  // Expansion of the kept lines
  // ---------------------------------------------------------------------

  /** Python `l.replace("AutoDGS", "opensam")`. */
  function Renamed(l: string): string
  {
    ReplaceAll(l, "AutoDGS", "opensam")
  }

  /** The renamed line mentions a level of detail. */
  predicate IsLod(l: string)
  {
    Contains(Renamed(l), "LOD")
  }

  /**
   * The output after the loop body has handled the kept line l, appending to
   * `acc` in the order of the script; `first` says no LOD line came before.
   */
  function AppendExpansion(acc: seq<string>, l: string, first: bool, turn180: bool, h: int): seq<string>
  {
    var r := Renamed(l);
    var lod := Contains(r, "LOD");
    var a1 := if lod && !first then acc + [EndLine] else acc;
    var a2 := a1 + [r];
    if !lod then a2
    else
      var a3 := a2 + [BeginLine];
      var a4 := if turn180 && !("#" <= r) then a3 + [RotateLine] else a3;
      if -3 <= h <= 3 then a4 else a4 + [TransLine(h)]
  }

  function LodCount(k: seq<string>): nat
  {
    if k == [] then 0 else LodCount(k[..|k| - 1]) + (if IsLod(k[|k| - 1]) then 1 else 0)
  }

  /** LOD lines that do not start with '#' (only these get a rotation). */
  function PlainLodCount(k: seq<string>): nat
  {
    if k == [] then 0
    else PlainLodCount(k[..|k| - 1]) + (if IsLod(k[|k| - 1]) && !("#" <= Renamed(k[|k| - 1])) then 1 else 0)
  }

  /** The output for the kept lines k, before the final line. */
  function Expand(k: seq<string>, turn180: bool, h: int): seq<string>
  {
    if k == [] then []
    else
      var init := k[..|k| - 1];
      AppendExpansion(Expand(init, turn180, h), k[|k| - 1], LodCount(init) == 0, turn180, h)
  }

  /** The kept lines after renaming, in order. */
  function RenamedAll(k: seq<string>): (r: seq<string>)
    ensures |r| == |k| && forall j :: 0 <= j < |k| ==> r[j] == Renamed(k[j])
  {
    if k == [] then [] else RenamedAll(k[..|k| - 1]) + [Renamed(k[|k| - 1])]
  }

  /** One more template line: the counter and the kept lines grow by that line's effect. */
  lemma KeptStep(ls: seq<string>, i: nat)
    requires i < |ls|
    ensures DepthAfter(ls[..i + 1], 0) == NextDepth(DepthAfter(ls[..i], 0), ls[i])
    ensures Kept(ls[..i + 1], 0) == Kept(ls[..i], 0) + (if Dropped(DepthAfter(ls[..i], 0), ls[i]) then [] else [ls[i]])
  {
    assert ls[..i + 1][..i] == ls[..i];
  }

  /** One more kept line: the output grows by that line's expansion. */
  lemma ExpandStep(k: seq<string>, l: string, turn180: bool, h: int)
    ensures LodCount(k + [l]) == LodCount(k) + (if IsLod(l) then 1 else 0)
    ensures Expand(k + [l], turn180, h) == AppendExpansion(Expand(k, turn180, h), l, LodCount(k) == 0, turn180, h)
  {
    assert (k + [l])[..|k|] == k;
  }

  // ---------------------------------------------------------------------
  // Counting the injected directives
  // ---------------------------------------------------------------------

  lemma TransLineStart(h: int)
    ensures |TransLine(h)| > 9 && TransLine(h)[9] == 't'
  {
    var fs := TransFields(h);
    assert Layout(fs, TransSeps) == fs[0] + (TransSeps[0] + Layout(fs[1..], TransSeps[1..]));
    assert TransLine(h) == "    " + ("ANIM_trans" + (TransSeps[0] + Layout(fs[1..], TransSeps[1..])));
  }

  /** The four injected directives are different lines. */
  lemma InjectedDistinct(h: int)
    ensures BeginLine != EndLine && BeginLine != RotateLine && BeginLine != TransLine(h)
    ensures EndLine != RotateLine && EndLine != TransLine(h) && RotateLine != TransLine(h)
  {
    TransLineStart(h);
    assert BeginLine[0] == 'A' && EndLine[0] == 'A' && RotateLine[0] == ' ';
    assert BeginLine[5] == 'b' && EndLine[5] == 'e';
    assert RotateLine[9] == 'r';
  }

  /** How one kept line changes the number of occurrences of a line x in the output. */
  lemma CountOne(acc: seq<string>, l: string, first: bool, turn180: bool, h: int, x: string)
    ensures Count(AppendExpansion(acc, l, first, turn180, h), x) == Count(acc, x) + (if Renamed(l) == x then 1 else 0)
      + (if IsLod(l) && !first && x == EndLine then 1 else 0)
      + (if IsLod(l) && x == BeginLine then 1 else 0)
      + (if IsLod(l) && turn180 && !("#" <= Renamed(l)) && x == RotateLine then 1 else 0)
      + (if IsLod(l) && !(-3 <= h <= 3) && x == TransLine(h) then 1 else 0)
  {
    if IsLod(l) {
      CountLod(acc, l, first, turn180, h, x);
    } else {
      CountAppend(acc, [Renamed(l)], x);
    }
  }

  /** How an LOD line and the directives injected after it change the count of x. */
  lemma CountLod(acc: seq<string>, l: string, first: bool, turn180: bool, h: int, x: string)
    requires IsLod(l)
    ensures Count(AppendExpansion(acc, l, first, turn180, h), x) == Count(acc, x) + (if Renamed(l) == x then 1 else 0)
      + (if !first && x == EndLine then 1 else 0)
      + (if x == BeginLine then 1 else 0)
      + (if turn180 && !("#" <= Renamed(l)) && x == RotateLine then 1 else 0)
      + (if !(-3 <= h <= 3) && x == TransLine(h) then 1 else 0)
  {
    var r := Renamed(l);
    var a1 := if !first then acc + [EndLine] else acc;
    var a2 := a1 + [r];
    var a3 := a2 + [BeginLine];
    var a4 := if turn180 && !("#" <= r) then a3 + [RotateLine] else a3;
    CountAppend(acc, [EndLine], x);
    CountAppend(a1, [r], x);
    CountAppend(a2, [BeginLine], x);
    CountAppend(a3, [RotateLine], x);
    CountAppend(a4, [TransLine(h)], x);
  }

  /** A begin directive follows every LOD line. */
  lemma {:induction false} BeginCount(k: seq<string>, turn180: bool, h: int)
    ensures Count(Expand(k, turn180, h), BeginLine) == Count(RenamedAll(k), BeginLine) + LodCount(k)
  {
    if k != [] {
      var init := k[..|k| - 1];
      BeginCount(init, turn180, h);
      CountOne(Expand(init, turn180, h), k[|k| - 1], LodCount(init) == 0, turn180, h, BeginLine);
      CountAppend(RenamedAll(init), [Renamed(k[|k| - 1])], BeginLine);
      InjectedDistinct(h);
    }
  }

  /** An end directive precedes every LOD line but the first. */
  lemma {:induction false} EndCount(k: seq<string>, turn180: bool, h: int)
    ensures Count(Expand(k, turn180, h), EndLine) == Count(RenamedAll(k), EndLine) + (if LodCount(k) == 0 then 0 else LodCount(k) - 1)
  {
    if k != [] {
      var init := k[..|k| - 1];
      EndCount(init, turn180, h);
      CountOne(Expand(init, turn180, h), k[|k| - 1], LodCount(init) == 0, turn180, h, EndLine);
      CountAppend(RenamedAll(init), [Renamed(k[|k| - 1])], EndLine);
      InjectedDistinct(h);
    }
  }

  /** With `turn_180`, a rotation follows every LOD line that does not start with '#', and only those. */
  lemma {:induction false} RotateCount(k: seq<string>, turn180: bool, h: int)
    ensures Count(Expand(k, turn180, h), RotateLine) == Count(RenamedAll(k), RotateLine) + (if turn180 then PlainLodCount(k) else 0)
  {
    if k != [] {
      var init := k[..|k| - 1];
      RotateCount(init, turn180, h);
      CountOne(Expand(init, turn180, h), k[|k| - 1], LodCount(init) == 0, turn180, h, RotateLine);
      CountAppend(RenamedAll(init), [Renamed(k[|k| - 1])], RotateLine);
      InjectedDistinct(h);
    }
  }

  /** A translation follows every LOD line exactly when the height exceeds 0.03 m in magnitude. */
  lemma {:induction false} TransCount(k: seq<string>, turn180: bool, h: int)
    ensures Count(Expand(k, turn180, h), TransLine(h)) == Count(RenamedAll(k), TransLine(h)) + (if -3 <= h <= 3 then 0 else LodCount(k))
  {
    if k != [] {
      var init := k[..|k| - 1];
      TransCount(init, turn180, h);
      CountOne(Expand(init, turn180, h), k[|k| - 1], LodCount(init) == 0, turn180, h, TransLine(h));
      CountAppend(RenamedAll(init), [Renamed(k[|k| - 1])], TransLine(h));
      InjectedDistinct(h);
    }
  }

  // ---------------------------------------------------------------------
  // Where each kept line lands
  // ---------------------------------------------------------------------

  /** The output of a prefix of the kept lines is a prefix of the output. */
  lemma {:induction false} ExpandPrefix(k: seq<string>, n: nat, turn180: bool, h: int)
    requires n <= |k|
    ensures Expand(k[..n], turn180, h) <= Expand(k, turn180, h)
    decreases |k|
  {
    if n < |k| {
      var init := k[..|k| - 1];
      assert init[..n] == k[..n];
      ExpandPrefix(init, n, turn180, h);
      AppendExpansionShape(Expand(init, turn180, h), k[|k| - 1], LodCount(init) == 0, turn180, h);
    } else {
      assert k[..n] == k;
    }
  }

  /** The index at which kept line j is written. */
  function Pos(k: seq<string>, j: nat, turn180: bool, h: int): nat
    requires j < |k|
  {
    |Expand(k[..j], turn180, h)| + (if IsLod(k[j]) && LodCount(k[..j]) > 0 then 1 else 0)
  }

  /** Where one kept line and its directives land after the output so far. */
  lemma AppendExpansionShape(acc: seq<string>, l: string, first: bool, turn180: bool, h: int)
    ensures var v := AppendExpansion(acc, l, first, turn180, h);
      var at := |acc| + (if IsLod(l) && !first then 1 else 0);
      acc <= v && at < |v| && v[at] == Renamed(l)
      && (IsLod(l) ==> at + 1 < |v| && v[at + 1] == BeginLine)
      && (IsLod(l) && !first ==> v[at - 1] == EndLine)
  {
  }

  /**
   * Kept line j is written renamed at Pos(k, j); a LOD line is followed by a
   * begin directive and, unless it is the first, preceded by an end directive.
   */
  lemma Placement(k: seq<string>, j: nat, turn180: bool, h: int)
    requires j < |k|
    ensures Pos(k, j, turn180, h) < |Expand(k[..j + 1], turn180, h)| <= |Expand(k, turn180, h)|
    ensures Expand(k, turn180, h)[Pos(k, j, turn180, h)] == Renamed(k[j])
    ensures IsLod(k[j]) ==> Pos(k, j, turn180, h) + 1 < |Expand(k, turn180, h)| && Expand(k, turn180, h)[Pos(k, j, turn180, h) + 1] == BeginLine
    ensures IsLod(k[j]) && LodCount(k[..j]) > 0 ==> Expand(k, turn180, h)[Pos(k, j, turn180, h) - 1] == EndLine
  {
    var p := k[..j + 1];
    assert p[..j] == k[..j] && p[j] == k[j];
    var prev := Expand(k[..j], turn180, h);
    assert Expand(p, turn180, h) == AppendExpansion(prev, k[j], LodCount(k[..j]) == 0, turn180, h);
    AppendExpansionShape(prev, k[j], LodCount(k[..j]) == 0, turn180, h);
    ExpandPrefix(k, j + 1, turn180, h);
    var v := Expand(p, turn180, h);
    var w := Expand(k, turn180, h);
    var at := Pos(k, j, turn180, h);
    assert v <= w;
    if IsLod(k[j]) {
      assert at + 1 < |v|;
      assert w[at + 1] == v[at + 1];
    }
  }

  /** Kept lines keep their relative order in the output. */
  lemma PlacementOrder(k: seq<string>, i: nat, j: nat, turn180: bool, h: int)
    requires i < j < |k|
    ensures Pos(k, i, turn180, h) < Pos(k, j, turn180, h)
  {
    Placement(k, i, turn180, h);
    var kj := k[..j];
    assert kj[..i + 1] == k[..i + 1];
    ExpandPrefix(kj, i + 1, turn180, h);
  }

  /** The whole file `gen_variant` writes for a template, a height and a rotation flag. */
  function Generated(lines: seq<string>, h: int, turn180: bool): seq<string>
  {
    Expand(Kept(lines, 0), turn180, h) + [FinalLine]
  }

  /** The body of the loop of `gen_variant` for a line that survives the filter. */
  method EmitKept(vlines: seq<string>, line: string, firstLod: bool, h: int, turn180: bool)
    returns (vlines': seq<string>, firstLod': bool)
    ensures vlines' == AppendExpansion(vlines, line, firstLod, turn180, h)
    ensures firstLod' == (firstLod && !IsLod(line))
  {
    vlines' := vlines;
    firstLod' := firstLod;
    var l := Renamed(line);
    if Contains(l, "LOD") && !firstLod {
      vlines' := vlines' + [EndLine];
    }
    vlines' := vlines' + [l];
    if Contains(l, "LOD") {
      firstLod' := false;
      vlines' := vlines' + [BeginLine];
      if turn180 && !("#" <= l) {
        vlines' := vlines' + [RotateLine];
      }
      if !(-3 <= h <= 3) {
        vlines' := vlines' + [TransLine(h)];
      }
    }
  }

  /** `gen_variant`: the loop of the script over the template lines. */
  method GenVariant(lines: seq<string>, h: int, turn180: bool) returns (vlines: seq<string>)
    ensures vlines == Generated(lines, h, turn180)
  {
    vlines := [];
    var firstLod := true;
    var nNoOpensam := 0;
    for i := 0 to |lines|
      invariant nNoOpensam == DepthAfter(lines[..i], 0)
      invariant firstLod == (LodCount(Kept(lines[..i], 0)) == 0)
      invariant vlines == Expand(Kept(lines[..i], 0), turn180, h)
    {
      ghost var k := Kept(lines[..i], 0);
      KeptStep(lines, i);
      ExpandStep(k, lines[i], turn180, h);
      var l := lines[i];
      if Contains(l, NoEnd) {
        nNoOpensam := nNoOpensam - 1;
        assert Kept(lines[..i + 1], 0) == k;
      } else {
        if Contains(l, NoBegin) {
          nNoOpensam := nNoOpensam + 1;
        }
        if nNoOpensam <= 0 {
          assert Kept(lines[..i + 1], 0) == k + [l];
          vlines, firstLod := EmitKept(vlines, l, firstLod, h, turn180);
        } else {
          assert Kept(lines[..i + 1], 0) == k;
        }
      }
    }
    assert lines[..|lines|] == lines;
    vlines := vlines + [FinalLine];
  }

  // ---------------------------------------------------------------------
  // `check`: the library manifest against the disk
  // ---------------------------------------------------------------------

  /**
   * The third word of every `EXPORT` line of the manifest, in order; None when
   * such a line has fewer than three words (the script's `w[2]` raises).
   */
  function ExportedFiles(ls: seq<string>): Option<seq<string>>
  {
    if ls == [] then Some([]) else AddExport(ExportedFiles(ls[..|ls| - 1]), ls[|ls| - 1])
  }

  /** One more manifest line: an EXPORT line adds its third word, or fails when it has fewer than three. */
  function AddExport(acc: Option<seq<string>>, l: string): Option<seq<string>>
  {
    match acc
    case None => None
    case Some(fs) =>
      if !("EXPORT" <= l) then Some(fs)
      else if |Words(l)| < 3 then None
      else Some(fs + [Words(l)[2]])
  }

  /** A line the script can read: not an EXPORT line, or one with at least three words. */
  predicate ExportLineOk(l: string)
  {
    "EXPORT" <= l ==> |Words(l)| >= 3
  }

  predicate ExportLinesOk(ls: seq<string>)
  {
    forall i :: 0 <= i < |ls| ==> ExportLineOk(ls[i])
  }

  /** Line l is an EXPORT line whose third word is f. */
  predicate Exports(l: string, f: string)
  {
    "EXPORT" <= l && |Words(l)| >= 3 && Words(l)[2] == f
  }

  /** Every exported file is the third word of an EXPORT line, and a well-formed manifest always reads. */
  lemma ExportedFilesFromLines(ls: seq<string>)
    ensures ExportedFiles(ls).Some? <==> ExportLinesOk(ls)
    ensures ExportedFiles(ls).Some? ==>
      forall f :: f in ExportedFiles(ls).value ==> exists i :: 0 <= i < |ls| && Exports(ls[i], f)
  {
    ExportedFilesRead(ls);
    if ExportedFiles(ls).Some? {
      ExportedFilesFound(ls);
    }
  }

  lemma {:induction false} ExportedFilesRead(ls: seq<string>)
    ensures ExportedFiles(ls).Some? <==> ExportLinesOk(ls)
  {
    if ls != [] {
      var init := ls[..|ls| - 1];
      ExportedFilesRead(init);
      assert ExportLinesOk(ls) <==> ExportLinesOk(init) && ExportLineOk(ls[|ls| - 1]) by {
        assert forall i :: 0 <= i < |init| ==> init[i] == ls[i];
      }
    }
  }

  lemma {:induction false} ExportedFilesFound(ls: seq<string>)
    requires ExportedFiles(ls).Some?
    ensures forall f :: f in ExportedFiles(ls).value ==> exists i :: 0 <= i < |ls| && Exports(ls[i], f)
  {
    if ls != [] {
      var init := ls[..|ls| - 1];
      var last := ls[|ls| - 1];
      ExportedFilesFound(init);
      var fs := ExportedFiles(init).value;
      assert ExportedFiles(ls).value == fs || ExportedFiles(ls).value == fs + [Words(last)[2]];
      forall f | f in ExportedFiles(ls).value
        ensures exists i :: 0 <= i < |ls| && Exports(ls[i], f)
      {
        if f in fs {
          var i :| 0 <= i < |init| && Exports(init[i], f);
          assert init[i] == ls[i];
        } else {
          assert Exports(ls[|ls| - 1], f);
        }
      }
    }
  }

  /** What `check` prints: the missing paths, and whether the all-present message appears. */
  datatype Report = Report(missing: set<string>, allPresent: bool)

  /** The path `check` tests for an exported file. */
  function TargetPath(targetDir: string, f: string): string
  {
    targetDir + "/" + f
  }

  /**
   * `check`: collects the exported files, makes them unique and reports each
   * one whose path is not on the disk; Err when an EXPORT line is too short.
   */
  method Check(manifest: seq<string>, disk: set<string>, targetDir: string) returns (r: Result<Report>)
    ensures ExportedFiles(manifest).None? <==> r.Err?
    ensures r.Ok? ==>
      r.value.missing == set f | f in ExportedFiles(manifest).value && TargetPath(targetDir, f) !in disk :: TargetPath(targetDir, f)
    ensures r.Ok? ==> (r.value.allPresent <==> forall f :: f in ExportedFiles(manifest).value ==> TargetPath(targetDir, f) in disk)
  {
    var files: seq<string> := [];
    for i := 0 to |manifest|
      invariant ExportedFiles(manifest[..i]) == Some(files)
    {
      assert manifest[..i + 1][..i] == manifest[..i];
      var l := manifest[i];
      if "EXPORT" <= l {
        var w := Words(l);
        if |w| < 3 {
          ExportedNoneStays(manifest, i + 1);
          return Err("IndexError: list index out of range");
        }
        files := files + [w[2]];
      }
    }
    assert manifest[..|manifest|] == manifest;
    var unique := set f | f in files;
    var missing, res := Missing(unique, disk, targetDir);
    r := Ok(Report(missing, res));
  }

  /** The reporting loop of `check`: the target paths of the unique files that are not on the disk. */
  method Missing(unique: set<string>, disk: set<string>, targetDir: string) returns (missing: set<string>, res: bool)
    ensures missing == set f | f in unique && TargetPath(targetDir, f) !in disk :: TargetPath(targetDir, f)
    ensures res <==> forall f :: f in unique ==> TargetPath(targetDir, f) in disk
  {
    missing := {};
    var rest := unique;
    res := true;
    while rest != {}
      invariant rest <= unique
      invariant missing == set f | f in unique - rest && TargetPath(targetDir, f) !in disk :: TargetPath(targetDir, f)
      invariant res <==> missing == {}
      decreases |rest|
    {
      var f :| f in rest;
      var ff := TargetPath(targetDir, f);
      if ff !in disk {
        missing := missing + {ff};
        res := false;
      }
      rest := rest - {f};
    }
    assert unique - rest == unique;
    if f :| f in unique && TargetPath(targetDir, f) !in disk {
      assert TargetPath(targetDir, f) in missing;
    }
  }

  /** Once an EXPORT line is too short, no longer manifest reads. */
  lemma {:induction false} ExportedNoneStays(ls: seq<string>, n: nat)
    requires n <= |ls| && ExportedFiles(ls[..n]).None?
    ensures ExportedFiles(ls).None?
    decreases |ls| - n
  {
    if n < |ls| {
      assert ls[..n + 1][..n] == ls[..n];
      ExportedNoneStays(ls, n + 1);
    } else {
      assert ls[..n] == ls;
    }
  }

  // ---------------------------------------------------------------------
  // The files the script generates
  // ---------------------------------------------------------------------

  datatype Template = Dgs | Pole

  /**
   * One file the script writes.  Heights are in tenths of a metre; `name180`
   * says the file name carries `_180`, `turn180` is the flag passed to
   * `gen_variant`.
   */
  datatype Job =
    | MakeObj(template: Template, tenths: nat, name180: bool, turn180: bool)
    | MakeAgp(template: Template, tenths: nat, name180: bool)

  /** `f"Safedock-T2-24_{h:0.1f}m"`, with `_pole` for the pole template. */
  function BaseName(template: Template, tenths: nat): string
  {
    "Safedock-T2-24_" + NatToDec(tenths / 10) + "." + [DigitChar(tenths % 10)] + "m"
    + (if template == Pole then "_pole" else "")
  }

  /**
   * The script passes a job's height to `gen_variant` in metres; here the
   * object of a job is `Generated(template, 10 * j.tenths, j.turn180)`, in
   * hundredths.  Its three-decimal text is the one-decimal text of the file
   * name followed by "00", so name and translation state the same height.
   */
  lemma HeightInName(tenths: nat)
    ensures UnsignedFixed3(10 * tenths) == NatToDec(tenths / 10) + "." + [DigitChar(tenths % 10), '0', '0']
  {
    var a := 10 * tenths;
    assert a / 100 == tenths / 10 && a % 100 / 10 == tenths % 10 && a % 10 == 0;
  }

  /** The path of a job's file below the library directory. */
  function FileName(j: Job): string
  {
    "dgs/" + BaseName(j.template, j.tenths) + (if j.name180 then "_180" else "")
    + (if j.MakeObj? then ".obj" else ".agp")
  }

  /** The object an AGP file places: always the unrotated `{name}.obj`. */
  function AgpObject(j: Job): string
  {
    BaseName(j.template, j.tenths) + ".obj"
  }

  /** The text of an AGP file: `ROTATION 2` for the `_180` variants, `ROTATION 0` otherwise. */
  function AgpText(name180: bool, obj: string): seq<string>
  {
    ["A\n", "1000\n", "AG_POINT\n", "\n", "TEXTURE ../blank/blank.png\n", "TEXTURE_SCALE 5 5\n",
     "TEXTURE_WIDTH 10\n", "HIDE_TILES\n", "\n", "OBJECT " + obj + "\n", "\n", "TILE -5 -5 5 5\n",
     "ROTATION " + (if name180 then "2" else "0") + "\n", "ANCHOR_PT 0.0 0.0\n", "OBJ_DRAPED 0 0 0 0\n"]
  }

  function Objs(template: Template, hs: seq<nat>, name180: bool, turn180: bool): seq<Job>
  {
    seq(|hs|, i requires 0 <= i < |hs| => MakeObj(template, hs[i], name180, turn180))
  }

  function Agps(template: Template, hs: seq<nat>, name180: bool): seq<Job>
  {
    seq(|hs|, i requires 0 <= i < |hs| => MakeAgp(template, hs[i], name180))
  }

  const DgsHeights: seq<nat> := [0, 25, 30, 35, 40, 45, 50, 55, 60, 65, 70]
  const DgsTurnedHeights: seq<nat> := [25, 30, 35, 40, 45, 50, 55, 60, 65, 70]
  const PoleHeights: seq<nat> := [0, 25, 30, 35, 40, 45, 50, 60]
  const PoleTurnedHeights: seq<nat> := [25, 30, 35, 40, 45, 50, 60]

  /**
   * The eight loops of the script in order; `poleTurn180` is the flag the
   * pole `_180.obj` loop passes to `gen_variant`.
   */
  function Jobs(poleTurn180: bool): seq<Job>
  {
    Objs(Dgs, DgsHeights, false, false) + Objs(Dgs, DgsTurnedHeights, true, true)
    + Agps(Dgs, DgsTurnedHeights, false) + Agps(Dgs, DgsTurnedHeights, true)
    + Objs(Pole, PoleHeights, false, false) + Objs(Pole, PoleTurnedHeights, true, poleTurn180)
    + Agps(Pole, PoleTurnedHeights, false) + Agps(Pole, PoleTurnedHeights, true)
  }

  /** The script as written: the pole `_180.obj` loop leaves `turn_180` at its default. */
  function JobsAsWritten(): seq<Job>
  {
    Jobs(false)
  }

  /** The script as evidently intended: every `_180.obj` is generated rotated. */
  function JobsCorrected(): seq<Job>
  {
    Jobs(true)
  }

  /** As written, a pole object named `_180` is generated without the rotation. */
  lemma PoleTurnedNotRotated()
    ensures exists j :: j in JobsAsWritten() && j.MakeObj? && j.name180 && !j.turn180
  {
    var j := MakeObj(Pole, 25, true, false);
    assert Objs(Pole, PoleTurnedHeights, true, false)[0] == j;
    assert j in JobsAsWritten();
  }

  /** Corrected, an object is rotated exactly when its name says `_180`. */
  lemma TurnedMatchesName()
    ensures forall j :: j in JobsCorrected() && j.MakeObj? ==> j.turn180 == j.name180
  {
  }

  /**
   * Every AGP file places an object the script also generates, with rotation
   * 2 exactly for the `_180` variants.
   */
  lemma AgpObjectsGenerated(poleTurn180: bool)
    ensures forall j :: j in Jobs(poleTurn180) && j.MakeAgp? ==>
      MakeObj(j.template, j.tenths, false, false) in Jobs(poleTurn180)
      && FileName(MakeObj(j.template, j.tenths, false, false)) == "dgs/" + AgpObject(j)
      && AgpText(j.name180, AgpObject(j))[9] == "OBJECT " + AgpObject(j) + "\n"
      && AgpText(j.name180, AgpObject(j))[12] == (if j.name180 then "ROTATION 2\n" else "ROTATION 0\n")
  {
    var js := Jobs(poleTurn180);
    forall j | j in js && j.MakeAgp?
      ensures MakeObj(j.template, j.tenths, false, false) in js
      ensures FileName(MakeObj(j.template, j.tenths, false, false)) == "dgs/" + AgpObject(j)
    {
      var o := MakeObj(j.template, j.tenths, false, false);
      var hs := if j.template == Dgs then DgsHeights else PoleHeights;
      assert j.tenths in hs;
      var i :| 0 <= i < |hs| && hs[i] == j.tenths;
      assert Objs(j.template, hs, false, false)[i] == o;
      var b := BaseName(j.template, j.tenths);
      assert FileName(o) == "dgs/" + b + "" + ".obj";
    }
  }
}
