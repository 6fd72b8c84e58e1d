/**
 * sam_xml.c: the earlier line-based reader of sam.xml.  Every line holding
 * `<jetway ` becomes one jetway record; each property is found by a plain
 * substring search for its name followed by the next quoted text, and the
 * record table grows by 100 entries whenever it is full.
 *
 * `atof` is a parameter; file reading is a sequence of lines.
 */
module SamXmlLegacy {
  import opened Wrappers
  import opened Strings
  import SamXml

  /** Where `extract_str` copies from and how many characters: the text after the first quote following prop, up to the next quote, cut to valueLen-1. */
  function ExtractSpan(line: string, prop: string, valueLen: nat): Option<(nat, nat)>
    requires valueLen >= 1
  {
    match IndexOf(line, prop)
    case None => None
    case Some(p) =>
      match IndexFrom(line, "\"", p)
      case None => None
      case Some(q) =>
        match IndexFrom(line, "\"", q + 1)
        case None => None
        case Some(q2) =>
          var len := q2 - (q + 1);
          Some((q + 1, if len > valueLen - 1 then valueLen - 1 else len))
  }

  /**
   * The copied text is the quoted value after the first occurrence of prop:
   * it follows a quote, holds no quote, fits the buffer, and is cut only
   * when the buffer is too small.
   */
  lemma ExtractSpanMeaning(line: string, prop: string, valueLen: nat)
    requires valueLen >= 1
    ensures ExtractSpan(line, prop, valueLen).Some? ==>
      var (st, len) := ExtractSpan(line, prop, valueLen).value;
      0 < st && st + len <= |line| && line[st - 1] == '"' && len <= valueLen - 1
      && '"' !in line[st..st + len] && (len < valueLen - 1 ==> st + len < |line| && line[st + len] == '"')
      && OccursAt(line, prop, IndexOf(line, prop).value) && IndexOf(line, prop).value < st
    ensures IndexOf(line, prop).None? ==> ExtractSpan(line, prop, valueLen).None?
  {
    if ExtractSpan(line, prop, valueLen).Some? {
      var p := IndexOf(line, prop).value;
      var q := IndexFrom(line, "\"", p).value;
      var q2 := IndexFrom(line, "\"", q + 1).value;
      assert line[q..q + 1] == "\"";
      assert line[q2..q2 + 1] == "\"";
      NoQuoteBefore(line, q + 1);
    }
  }

  /** Up to the next quote found from `from`, the line holds no quote. */
  lemma NoQuoteBefore(line: string, from: nat)
    requires IndexFrom(line, "\"", from).Some?
    ensures forall k :: from <= k < IndexFrom(line, "\"", from).value ==> line[k] != '"'
  {
    forall k | from <= k < IndexFrom(line, "\"", from).value
      ensures line[k] != '"'
    {
      assert !OccursAt(line, "\"", k);
      assert line[k..k + 1] == [line[k]];
    }
  }

  /**
   * `extract_str`: copies the span into the caller's buffer and terminates
   * it; without prop or either quote the buffer is left alone.
   */
  method ExtractStr(line: string, prop: string, value: array<char>)
    requires value.Length >= 1
    modifies value
    ensures ExtractSpan(line, prop, value.Length).None? ==> value[..] == old(value[..])
    ensures ExtractSpan(line, prop, value.Length).Some? ==>
      var (st, len) := ExtractSpan(line, prop, value.Length).value;
      st + len <= |line| && len < value.Length
      && value[..] == line[st..st + len] + ['\0'] + old(value[..])[len + 1..]
  {
    ExtractSpanMeaning(line, prop, value.Length);
    var span := ExtractSpan(line, prop, value.Length);
    if span.None? {
      return;
    }
    var (st, len) := span.value;
    ghost var before := value[..];
    for i := 0 to len
      invariant forall k :: 0 <= k < i ==> value[k] == line[st + k]
      invariant forall k :: i <= k < value.Length ==> value[k] == before[k]
    {
      value[i] := line[st + i];
    }
    value[len] := '\0';
    assert value[..] == line[st..st + len] + ['\0'] + before[len + 1..];
  }

  /** `extract_float`: the number after the first quote following prop, 0.0 without prop or quote. */
  function ExtractFloat(line: string, prop: string, atof: string -> real): real
  {
    match IndexOf(line, prop)
    case None => 0.0
    case Some(p) =>
      match IndexFrom(line, "\"", p)
      case None => 0.0
      case Some(q) => atof(line[q + 1..])
  }

  /** A jetway record of the legacy reader: name, sound and the numeric properties by `SamXml.JwFloatNames`. */
  datatype LegacyJw = LegacyJw(name: string, sound: string, nums: seq<real>)

  /** The C string a zeroed buffer of `size` bytes holds after `extract_str`. */
  function StrProp(line: string, prop: string, size: nat): (r: string)
    requires size >= 1
    ensures |r| < size
  {
    SpanString(line, ExtractSpan(line, prop, size))
  }

  /** The C string copied from a span of the line: none at all without a span. */
  function SpanString(line: string, span: Option<(nat, nat)>): (r: string)
    ensures span.Some? ==> |r| <= span.value.1
    ensures span.None? ==> r == ""
  {
    match span
    case None => ""
    case Some((st, len)) => if st + len <= |line| then CutAt(line[st..st + len], '\0') else ""
  }

  /** The record `get_sam_props` fills from one line. */
  function SamProps(line: string, atof: string -> real): LegacyJw
  {
    LegacyJw(StrProp(line, "name", 40), StrProp(line, "sound", 40),
             seq(|SamXml.JwFloatNames|, k requires 0 <= k < |SamXml.JwFloatNames| => ExtractFloat(line, SamXml.JwFloatNames[k], atof)))
  }

  /** `get_sam_props`: the record is zeroed, then each property extracted. */
  method GetSamProps(line: string, atof: string -> real) returns (jw: LegacyJw)
    ensures jw == SamProps(line, atof)
  {
    var name := StrField(line, "name");
    var sound := StrField(line, "sound");
    jw := LegacyJw(name, sound,
                   seq(|SamXml.JwFloatNames|, k requires 0 <= k < |SamXml.JwFloatNames| => ExtractFloat(line, SamXml.JwFloatNames[k], atof)));
  }

  /** One zeroed 40-byte string field of `sam_jw_t` filled by `extract_str`, read back as a C string. */
  method StrField(line: string, prop: string) returns (s: string)
    ensures s == StrProp(line, prop, 40)
  {
    var buf := new char[40](_ => '\0');
    ghost var zero := buf[..];
    ExtractStr(line, prop, buf);
    ZeroedBufferString(line, ExtractSpan(line, prop, 40), zero, buf[..]);
    s := CutAt(buf[..], '\0');
  }

  /** What a zeroed buffer holds as a C string once `extract_str` has copied a span into it. */
  lemma ZeroedBufferString(line: string, span: Option<(nat, nat)>, before: seq<char>, after: seq<char>)
    requires |before| == |after| >= 1 && forall k :: 0 <= k < |before| ==> before[k] == '\0'
    requires span.None? ==> after == before
    requires span.Some? ==> (span.value.0 + span.value.1 <= |line| && span.value.1 < |after|
      && after == line[span.value.0..span.value.0 + span.value.1] + ['\0'] + before[span.value.1 + 1..])
    ensures CutAt(after, '\0') == SpanString(line, span)
  {
    if span.None? {
      assert after[0] == before[0];
      CutAtNul(after);
    } else {
      CutAtCopy(line[span.value.0..span.value.0 + span.value.1], before[span.value.1 + 1..], after);
    }
  }

  /** A buffer that starts with NUL is the empty C string. */
  lemma CutAtNul(s: string)
    requires |s| >= 1 && s[0] == '\0'
    ensures CutAt(s, '\0') == ""
  {
  }

  /** A copied text followed by its terminator reads back as the copied text, up to any NUL in it. */
  lemma CutAtCopy(a: string, rest: string, s: string)
    requires s == a + ['\0'] + rest
    ensures CutAt(s, '\0') == CutAt(a, '\0')
  {
    assert s == a + (['\0'] + rest);
    CutAtPrefix(a, ['\0'] + rest);
  }

  /** Cutting at NUL looks no further than the first NUL. */
  lemma {:induction false} CutAtPrefix(a: string, b: string)
    requires |b| > 0 && b[0] == '\0'
    ensures CutAt(a + b, '\0') == CutAt(a, '\0')
  {
    if a == [] {
      assert a + b == [b[0]] + b[1..];
    } else {
      assert (a + b)[1..] == a[1..] + b;
      CutAtPrefix(a[1..], b);
    }
  }

  /** The records `main` builds: one per line containing "<jetway ", cut at CR, in file order. */
  function Records(lines: seq<string>, atof: string -> real): (r: seq<LegacyJw>)
    ensures |r| <= |lines|
  {
    if lines == [] then []
    else
      var init := Records(lines[..|lines| - 1], atof);
      var l := lines[|lines| - 1];
      if Contains(l, "<jetway ") then init + [SamProps(CutAt(l, '\r'), atof)] else init
  }

  /**
   * The reading loop of `main`: a record per jetway line, the table grown
   * by 100 entries whenever it is full.
   */
  method ReadSamJws(lines: seq<string>, atof: string -> real) returns (jws: seq<LegacyJw>, cap: nat)
    ensures jws == Records(lines, atof)
    ensures cap % 100 == 0 && |jws| <= cap && (|jws| == 0 ==> cap == 0) && (|jws| > 0 ==> cap < |jws| + 100)
  {
    jws := [];
    cap := 0;
    ghost var blocks: nat := 0;
    for i := 0 to |lines|
      invariant jws == Records(lines[..i], atof)
      invariant cap == 100 * blocks && |jws| <= cap && (|jws| == 0 ==> cap == 0) && (|jws| > 0 ==> cap < |jws| + 100)
    {
      RecordsStep(lines, i, atof);
      if !Contains(lines[i], "<jetway ") {
        assert Records(lines[..i + 1], atof) == jws + [];
        continue;
      }
      var line := CutAt(lines[i], '\r');
      if |jws| == cap {
        cap := cap + 100;
        blocks := blocks + 1;
      }
      var jw := GetSamProps(line, atof);
      assert Records(lines[..i + 1], atof) == jws + [jw];
      jws := jws + [jw];
    }
    assert lines[..|lines|] == lines;
  }

  /** One more line of the file adds its record, if it is a jetway line. */
  lemma RecordsStep(lines: seq<string>, i: nat, atof: string -> real)
    requires i < |lines|
    ensures Records(lines[..i + 1], atof)
      == Records(lines[..i], atof) + (if Contains(lines[i], "<jetway ") then [SamProps(CutAt(lines[i], '\r'), atof)] else [])
  {
    assert lines[..i + 1][..i] == lines[..i];
  }

  /** Each line is read on its own: the records of two runs of lines are those of each run, concatenated. */
  lemma {:induction false} RecordsConcat(a: seq<string>, b: seq<string>, atof: string -> real)
    ensures Records(a + b, atof) == Records(a, atof) + Records(b, atof)
  {
    if b == [] {
      assert a + b == a;
    } else {
      assert (a + b)[..|a + b| - 1] == a + b[..|b| - 1];
      RecordsConcat(a, b[..|b| - 1], atof);
    }
  }

  /** Lines without "<jetway " yield no records at all. */
  lemma {:induction false} RecordsNone(lines: seq<string>, atof: string -> real)
    requires forall k :: 0 <= k < |lines| ==> !Contains(lines[k], "<jetway ")
    ensures Records(lines, atof) == []
  {
    if lines != [] {
      RecordsNone(lines[..|lines| - 1], atof);
    }
  }
}
