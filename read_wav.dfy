/**
 * read_wav.cpp: a small RIFF/WAVE reader.  The 36-byte header must carry
 * the "RIFF", "WAVE" and "fmt " tags and a format chunk of at least 16
 * bytes; then chunks are walked until the first "data" chunk, whose body is
 * the sound.  Every failure leaves the sound zeroed.
 *
 * The file is a byte sequence (`None` when it cannot be opened); integers
 * are little-endian, as on the platforms the plugin runs on.
 */
module ReadWav {
  import opened Wrappers

  type byte = b: int | 0 <= b < 256

  const RiffTag: seq<byte> := [82, 73, 70, 70]
  const WaveTag: seq<byte> := [87, 65, 86, 69]
  const FmtTag: seq<byte> := [102, 109, 116, 32]
  const DataTag: seq<byte> := [100, 97, 116, 97]

  /** sizeof(WAV_HEADER): RIFF chunk header, "WAVE", fmt chunk header, WAV_FORMAT. */
  const HeaderSize := 36
  /** sizeof(WAV_FORMAT). */
  const FormatSize := 16
  /** sizeof(CHUNK_HEADER). */
  const ChunkHeaderSize := 8

  /** An unsigned 32-bit little-endian field. */
  function U32(f: seq<byte>, i: nat): (r: nat)
    requires i + 4 <= |f|
    ensures r < 0x1_0000_0000
  {
    var b0: int, b1: int, b2: int, b3: int := f[i], f[i + 1], f[i + 2], f[i + 3];
    b0 + 256 * (b1 + 256 * (b2 + 256 * b3))
  }

  /** A signed 16-bit little-endian field (`short`). */
  function S16(f: seq<byte>, i: nat): (r: int)
    requires i + 2 <= |f|
    ensures -0x8000 <= r < 0x8000
  {
    var b0: int, b1: int := f[i], f[i + 1];
    var u := b0 + 256 * b1;
    if u >= 0x8000 then u - 0x1_0000 else u
  }

  /** A signed 32-bit little-endian field (`int`). */
  function S32(f: seq<byte>, i: nat): (r: int)
    requires i + 4 <= |f|
    ensures -0x8000_0000 <= r < 0x8000_0000
  {
    var u := U32(f, i);
    if u >= 0x8000_0000 then u - 0x1_0000_0000 else u
  }

  /** The `Sound` record: `data` is `None` for the null pointer. */
  datatype Sound = Sound(data: Option<seq<byte>>, size: nat, sampleRate: int, numChannels: int)

  /** `sound = {}`. */
  const NoSound := Sound(None, 0, 0, 0)

  /** Which way `read_wav` ends; every way but `Loaded` is logged. */
  datatype Outcome = Loaded | CannotOpen | CannotReadHeader | InvalidHeader | ReadError | NoDataChunk

  /** `memcmp(f + i, tag, 4) == 0`. */
  predicate TagAt(f: seq<byte>, i: nat, tag: seq<byte>)
    requires i + 4 <= |f| && |tag| == 4
  {
    f[i] == tag[0] && f[i + 1] == tag[1] && f[i + 2] == tag[2] && f[i + 3] == tag[3]
  }

  /** The header checks: three tags and a format chunk no smaller than WAV_FORMAT. */
  predicate HeaderOk(f: seq<byte>)
    requires |f| >= HeaderSize
  {
    TagAt(f, 0, RiffTag) && TagAt(f, 8, WaveTag) && TagAt(f, 12, FmtTag) && U32(f, 16) >= FormatSize
  }

  /**
   * Where the chunk walk starts: after the format chunk's declared size;
   * with `pad`, also after its RIFF pad byte.
   */
  function FirstChunk(f: seq<byte>, pad: bool): (r: nat)
    requires |f| >= HeaderSize
    ensures r >= HeaderSize - FormatSize + U32(f, 16)
  {
    var fs := U32(f, 16);
    HeaderSize - FormatSize + fs + (if pad then fs % 2 else 0)
  }

  /** The position after the chunk whose header is at pos; with `pad`, an odd body is followed by a pad byte. */
  function NextChunk(f: seq<byte>, pos: nat, pad: bool): (r: nat)
    requires pos + ChunkHeaderSize <= |f|
    ensures r >= pos + ChunkHeaderSize + U32(f, pos + 4)
  {
    var size := U32(f, pos + 4);
    pos + ChunkHeaderSize + size + (if pad then size % 2 else 0)
  }

  /**
   * The chunk walk: the header position of the first "data" chunk reached
   * from pos, or `None` when a chunk header no longer fits in the file.
   * `read_wav` walks with pad = false.
   */
  function DataChunk(f: seq<byte>, pos: nat, pad: bool): Option<nat>
    decreases |f| - pos
  {
    if pos + ChunkHeaderSize > |f| then None
    else if TagAt(f, pos, DataTag) then Some(pos)
    else DataChunk(f, NextChunk(f, pos, pad), pad)
  }

  /** The walk stops only at a "data" chunk header that lies wholly in the file, at or after its start. */
  lemma {:induction false} DataChunkIsData(f: seq<byte>, pos: nat, pad: bool)
    decreases |f| - pos
    ensures var r := DataChunk(f, pos, pad);
      r.Some? ==> pos <= r.value && r.value + ChunkHeaderSize <= |f| && TagAt(f, r.value, DataTag)
  {
    if pos + ChunkHeaderSize <= |f| && !TagAt(f, pos, DataTag) {
      DataChunkIsData(f, NextChunk(f, pos, pad), pad);
    }
  }

  /**
   * The result of `read_wav` on a file (pad = false), or on the RIFF
   * layout with pad bytes (pad = true).
   */
  function ReadWavOf(file: Option<seq<byte>>, pad: bool): (r: (Sound, Outcome))
    ensures r.1 == Loaded ==> file.Some? && |file.value| >= HeaderSize && HeaderOk(file.value)
  {
    match file
    case None => (NoSound, CannotOpen)
    case Some(f) =>
      if |f| < HeaderSize then (NoSound, CannotReadHeader)
      else if !HeaderOk(f) then (NoSound, InvalidHeader)
      else
        DataChunkIsData(f, FirstChunk(f, pad), pad);
        LoadData(f, DataChunk(f, FirstChunk(f, pad), pad))
  }

  /**
   * The end of `read_wav`: the sound held by the "data" chunk found at p,
   * with the format's rate and channel count.  No chunk, or a "data" chunk
   * whose body is empty or runs past the end of the file, leaves the sound
   * zeroed.
   */
  function LoadData(f: seq<byte>, p: Option<nat>): (r: (Sound, Outcome))
    requires |f| >= HeaderSize && (p.Some? ==> p.value + ChunkHeaderSize <= |f|)
    ensures r.1 == Loaded <==> r.0.data.Some?
    ensures r.1 != Loaded ==> r.0 == NoSound
    ensures r.1 == Loaded ==> (r.0.size == |r.0.data.value| > 0
      && r.0.sampleRate == S32(f, 24) && r.0.numChannels == S16(f, 22))
    ensures r.1 == Loaded ==> (p.Some? && p.value + ChunkHeaderSize + U32(f, p.value + 4) <= |f|
      && r.0.data.value == f[p.value + ChunkHeaderSize..p.value + ChunkHeaderSize + U32(f, p.value + 4)])
  {
    match p
    case None => (NoSound, NoDataChunk)
    case Some(p) =>
      var size := U32(f, p + 4);
      if size == 0 || p + ChunkHeaderSize + size > |f| then (NoSound, ReadError)
      else (Sound(Some(f[p + ChunkHeaderSize..p + ChunkHeaderSize + size]), size, S32(f, 24), S16(f, 22)), Loaded)
  }

  /** `read_wav`: reads the header, skips the rest of the format chunk and walks the chunks with a file cursor. */
  method ReadWav(file: Option<seq<byte>>) returns (sound: Sound, outcome: Outcome)
    ensures (sound, outcome) == ReadWavOf(file, false)
  {
    sound, outcome := NoSound, CannotOpen;
    if file.None? {
      return;
    }
    var f := file.value;
    if |f| < HeaderSize {
      outcome := CannotReadHeader;
      return;
    }
    if !TagAt(f, 0, RiffTag) || !TagAt(f, 8, WaveTag) || !TagAt(f, 12, FmtTag) || U32(f, 16) < FormatSize {
      outcome := InvalidHeader;
      return;
    }
    var p := WalkChunks(f, HeaderSize + (U32(f, 16) - FormatSize));
    DataChunkIsData(f, FirstChunk(f, false), false);
    sound, outcome := ReadData(f, p);
  }

  /** The loop of `read_wav`: reads chunk headers until a "data" chunk or the end of the file. */
  method WalkChunks(f: seq<byte>, start: nat) returns (p: Option<nat>)
    ensures p == DataChunk(f, start, false)
  {
    var pos := start;
    var found := false;
    while !found && pos + ChunkHeaderSize <= |f|
      invariant DataChunk(f, pos, false) == DataChunk(f, start, false)
      invariant found ==> pos + ChunkHeaderSize <= |f| && TagAt(f, pos, DataTag)
      decreases |f| - pos, !found
    {
      if TagAt(f, pos, DataTag) {
        found := true;
      } else {
        WalkStep(f, pos);
        pos := pos + ChunkHeaderSize + U32(f, pos + 4);
      }
    }
    p := if found then Some(pos) else None;
  }

  /** The data chunk branch of `read_wav`: reads the body and fills the sound from the format. */
  method ReadData(f: seq<byte>, p: Option<nat>) returns (sound: Sound, outcome: Outcome)
    requires |f| >= HeaderSize && (p.Some? ==> p.value + ChunkHeaderSize <= |f|)
    ensures (sound, outcome) == LoadData(f, p)
  {
    sound := NoSound;
    if p.None? {
      outcome := NoDataChunk;
      return;
    }
    var pos := p.value;
    var size := U32(f, pos + 4);
    if size == 0 || pos + ChunkHeaderSize + size > |f| {
      outcome := ReadError;
      return;
    }
    sound := Sound(Some(f[pos + ChunkHeaderSize..pos + ChunkHeaderSize + size]), size, S32(f, 24), S16(f, 22));
    outcome := Loaded;
  }

  /** One step of the file reader's walk past a chunk that is not "data". */
  lemma WalkStep(f: seq<byte>, pos: nat)
    requires pos + ChunkHeaderSize <= |f| && !TagAt(f, pos, DataTag)
    ensures DataChunk(f, pos, false) == DataChunk(f, pos + ChunkHeaderSize + U32(f, pos + 4), false)
  {
  }

  // Writing RIFF chunks, as the partner of the chunk walk.

  /** A chunk: a four-byte id, the four bytes of its size field and a body of that size. */
  datatype Chunk = Chunk(id: seq<byte>, size: seq<byte>, body: seq<byte>)

  predicate ChunkOk(c: Chunk)
  {
    |c.id| == 4 && |c.size| == 4 && U32(c.size, 0) == |c.body|
  }

  /** A 32-bit field reads the same wherever its four bytes lie. */
  lemma U32At(f: seq<byte>, i: nat, w: seq<byte>)
    requires |w| == 4 && i + 4 <= |f| && f[i..i + 4] == w
    ensures U32(f, i) == U32(w, 0)
  {
    assert f[i] == w[0] && f[i + 1] == w[1] && f[i + 2] == w[2] && f[i + 3] == w[3];
  }

  /** A chunk's bytes: id, size, body and, with `pad`, a zero pad byte after an odd body. */
  function ChunkBytes(c: Chunk, pad: bool): (r: seq<byte>)
    requires ChunkOk(c)
    ensures |r| == ChunkHeaderSize + |c.body| + (if pad then |c.body| % 2 else 0)
  {
    c.id + c.size + c.body + (if pad && |c.body| % 2 == 1 then [0] else [])
  }

  predicate ChunksOk(cs: seq<Chunk>)
  {
    forall k :: 0 <= k < |cs| ==> ChunkOk(cs[k])
  }

  /** A run of chunks, written one after another. */
  function Serialize(cs: seq<Chunk>, pad: bool): seq<byte>
    requires ChunksOk(cs)
  {
    if cs == [] then [] else ChunkBytes(cs[0], pad) + Serialize(cs[1..], pad)
  }

  /** The body of the first "data" chunk of a run. */
  function FirstData(cs: seq<Chunk>): Option<seq<byte>>
  {
    if cs == [] then None
    else if cs[0].id == DataTag then Some(cs[0].body)
    else FirstData(cs[1..])
  }

  /** The bytes `w` lie in f at pos. */
  predicate WrittenAt(f: seq<byte>, pos: nat, w: seq<byte>)
  {
    pos + |w| <= |f| && f[pos..pos + |w|] == w
  }

  /** Bytes written one after the other lie one after the other. */
  lemma WrittenSplit(f: seq<byte>, pos: nat, a: seq<byte>, b: seq<byte>)
    requires WrittenAt(f, pos, a + b)
    ensures WrittenAt(f, pos, a) && WrittenAt(f, pos + |a|, b)
  {
    assert f[pos..pos + |a|] == (a + b)[..|a|];
    assert f[pos + |a|..pos + |a| + |b|] == (a + b)[|a|..];
  }

  /**
   * The walk finds what was written: over chunks written with the same
   * padding convention it stops at the first "data" chunk, wherever the
   * run lies in the file.
   */
  lemma {:induction false} WalkFindsFirstData(f: seq<byte>, pos: nat, cs: seq<Chunk>, pad: bool, body: seq<byte>)
    returns (p: nat)
    requires ChunksOk(cs) && FirstData(cs) == Some(body) && WrittenAt(f, pos, Serialize(cs, pad))
    decreases |cs|, 1
    ensures DataChunk(f, pos, pad) == Some(p) && p + ChunkHeaderSize <= |f|
    ensures U32(f, p + 4) == |body| && WrittenAt(f, p + ChunkHeaderSize, body)
  {
    SplitFirst(f, pos, cs, pad);
    if cs[0].id == DataTag {
      StopAtData(f, pos, cs[0], pad);
      p := pos;
    } else {
      p := WalkPastChunk(f, pos, cs, pad, body);
    }
  }

  /** A written run of chunks is its first chunk's bytes followed by the rest of the run. */
  lemma SplitFirst(f: seq<byte>, pos: nat, cs: seq<Chunk>, pad: bool)
    requires ChunksOk(cs) && cs != [] && WrittenAt(f, pos, Serialize(cs, pad))
    ensures ChunkOk(cs[0]) && ChunksOk(cs[1..])
    ensures WrittenAt(f, pos, ChunkBytes(cs[0], pad)) && WrittenAt(f, pos + |ChunkBytes(cs[0], pad)|, Serialize(cs[1..], pad))
  {
    assert ChunkOk(cs[0]);
    WrittenSplit(f, pos, ChunkBytes(cs[0], pad), Serialize(cs[1..], pad));
  }

  /** The walk past a first chunk that is not "data": the rest of the run holds the first "data" chunk. */
  lemma {:induction false} WalkPastChunk(f: seq<byte>, pos: nat, cs: seq<Chunk>, pad: bool, body: seq<byte>)
    returns (p: nat)
    requires ChunksOk(cs) && FirstData(cs) == Some(body) && cs != [] && cs[0].id != DataTag
    requires WrittenAt(f, pos, ChunkBytes(cs[0], pad)) && WrittenAt(f, pos + |ChunkBytes(cs[0], pad)|, Serialize(cs[1..], pad))
    decreases |cs|, 0
    ensures DataChunk(f, pos, pad) == Some(p) && p + ChunkHeaderSize <= |f|
    ensures U32(f, p + 4) == |body| && WrittenAt(f, p + ChunkHeaderSize, body)
  {
    var c, cs' := cs[0], cs[1..];
    assert ChunksOk(cs') && FirstData(cs') == Some(body);
    SkipChunk(f, pos, c, pad);
    p := WalkFindsFirstData(f, pos + |ChunkBytes(c, pad)|, cs', pad, body);
  }

  /** The walk stops at a written "data" chunk and reads its size and body. */
  lemma StopAtData(f: seq<byte>, pos: nat, c: Chunk, pad: bool)
    requires ChunkOk(c) && WrittenAt(f, pos, ChunkBytes(c, pad)) && c.id == DataTag
    ensures DataChunk(f, pos, pad) == Some(pos) && pos + ChunkHeaderSize <= |f|
    ensures U32(f, pos + 4) == |c.body| && WrittenAt(f, pos + ChunkHeaderSize, c.body)
  {
    ChunkAt(f, pos, c, pad);
  }

  /** The walk steps over any other written chunk. */
  lemma SkipChunk(f: seq<byte>, pos: nat, c: Chunk, pad: bool)
    requires ChunkOk(c) && WrittenAt(f, pos, ChunkBytes(c, pad)) && c.id != DataTag
    ensures DataChunk(f, pos, pad) == DataChunk(f, pos + |ChunkBytes(c, pad)|, pad)
  {
    ChunkAt(f, pos, c, pad);
  }

  /** What the walk reads at a chunk that was written there. */
  lemma ChunkAt(f: seq<byte>, pos: nat, c: Chunk, pad: bool)
    requires ChunkOk(c) && WrittenAt(f, pos, ChunkBytes(c, pad))
    ensures pos + ChunkHeaderSize <= |f| && f[pos..pos + 4] == c.id && (TagAt(f, pos, DataTag) <==> c.id == DataTag)
    ensures U32(f, pos + 4) == |c.body|
    ensures WrittenAt(f, pos + ChunkHeaderSize, c.body)
    ensures NextChunk(f, pos, pad) == pos + |ChunkBytes(c, pad)|
  {
    var padBytes: seq<byte> := if pad && |c.body| % 2 == 1 then [0] else [];
    assert ChunkBytes(c, pad) == c.id + (c.size + (c.body + padBytes));
    WrittenSplit(f, pos, c.id, c.size + (c.body + padBytes));
    WrittenSplit(f, pos + 4, c.size, c.body + padBytes);
    WrittenSplit(f, pos + 8, c.body, padBytes);
    U32At(f, pos + 4, c.size);
    assert c.id[0] == f[pos] && c.id[1] == f[pos + 1] && c.id[2] == f[pos + 2] && c.id[3] == f[pos + 3];
    if TagAt(f, pos, DataTag) {
      assert forall k | 0 <= k < 4 :: c.id[k] == DataTag[k];
    }
  }

  /** The header of a file that passes the checks, with a 16-byte format chunk. */
  predicate PlainHeader(h: seq<byte>)
  {
    |h| == HeaderSize && HeaderOk(h) && U32(h, 16) == FormatSize
  }

  /** The bytes by which the format chunk outgrows WAV_FORMAT, with its pad byte under `pad`. */
  function FormatExtra(h: seq<byte>, pad: bool): nat
    requires |h| == HeaderSize && HeaderOk(h)
  {
    U32(h, 16) - FormatSize + (if pad then U32(h, 16) % 2 else 0)
  }

  /**
   * Writing a header, the rest of a longer format chunk and a run of
   * chunks, and reading the file back, yields the first "data" body with
   * the header's rate and channel count, as long as reader and writer
   * agree on padding.
   */
  lemma ReadWavRoundTrip(f: seq<byte>, h: seq<byte>, ext: seq<byte>, cs: seq<Chunk>, rest: seq<byte>, pad: bool, body: seq<byte>)
    requires |h| == HeaderSize && HeaderOk(h) && |ext| == FormatExtra(h, pad)
    requires ChunksOk(cs) && FirstData(cs) == Some(body) && |body| > 0
    requires f == h + ext + Serialize(cs, pad) + rest
    ensures ReadWavOf(Some(f), pad) == (Sound(Some(body), |body|, S32(h, 24), S16(h, 22)), Loaded)
  {
    assert f == h + (ext + Serialize(cs, pad) + rest);
    HeaderPrefix(h, ext + Serialize(cs, pad) + rest);
    var start := |h| + |ext|;
    assert f[start..start + |Serialize(cs, pad)|] == Serialize(cs, pad);
    ReadWavFindsData(f, start, cs, pad, body);
  }

  /** A file that passes the checks and holds the run of chunks where the walk starts yields the run's first "data" body. */
  lemma ReadWavFindsData(f: seq<byte>, start: nat, cs: seq<Chunk>, pad: bool, body: seq<byte>)
    requires |f| >= HeaderSize && HeaderOk(f) && FirstChunk(f, pad) == start
    requires ChunksOk(cs) && FirstData(cs) == Some(body) && |body| > 0 && WrittenAt(f, start, Serialize(cs, pad))
    ensures ReadWavOf(Some(f), pad) == (Sound(Some(body), |body|, S32(f, 24), S16(f, 22)), Loaded)
  {
    var p := WalkFindsFirstData(f, start, cs, pad, body);
    LoadsBody(f, p, body);
  }

  /** A "data" chunk at p whose size field is that of the body written after its header loads that body. */
  lemma LoadsBody(f: seq<byte>, p: nat, body: seq<byte>)
    requires |f| >= HeaderSize && p + ChunkHeaderSize <= |f| && |body| > 0
    requires U32(f, p + 4) == |body| && WrittenAt(f, p + ChunkHeaderSize, body)
    ensures LoadData(f, Some(p)) == (Sound(Some(body), |body|, S32(f, 24), S16(f, 22)), Loaded)
  {
  }

  /** The header fields of a file are those of its first 36 bytes. */
  lemma HeaderPrefix(h: seq<byte>, tail: seq<byte>)
    requires |h| == HeaderSize
    ensures var f := h + tail;
      HeaderOk(f) == HeaderOk(h) && U32(f, 16) == U32(h, 16) && S32(f, 24) == S32(h, 24) && S16(f, 22) == S16(h, 22)
  {
    var f := h + tail;
    assert f[..HeaderSize] == h;
  }

  /** Without odd bodies, padding changes nothing: the file reader is right on such files. */
  lemma {:induction false} EvenChunksNeedNoPad(cs: seq<Chunk>)
    requires ChunksOk(cs)
    requires forall k :: 0 <= k < |cs| ==> |cs[k].body| % 2 == 0
    ensures Serialize(cs, true) == Serialize(cs, false)
  {
    if cs != [] {
      EvenChunksNeedNoPad(cs[1..]);
    }
  }

  /** A header for 8000 Hz mono 8-bit PCM with a 16-byte format chunk. */
  const SampleHeader: seq<byte> :=
    [82, 73, 70, 70, 48, 0, 0, 0, 87, 65, 86, 69, 102, 109, 116, 32, 16, 0, 0, 0,
     1, 0, 1, 0, 64, 31, 0, 0, 64, 31, 0, 0, 1, 0, 8, 0]

  /** A one-byte "LIST" chunk followed by a two-byte "data" chunk. */
  const SampleChunks: seq<Chunk> := [Chunk([76, 73, 83, 84], [1, 0, 0, 0], [7]), Chunk(DataTag, [2, 0, 0, 0], [5, 6])]

  /** The RIFF bytes of `SampleChunks`: the "LIST" chunk carries one pad byte. */
  const SampleBody: seq<byte> := [76, 73, 83, 84, 1, 0, 0, 0, 7, 0, 100, 97, 116, 97, 2, 0, 0, 0, 5, 6]

  /** The sample header passes the checks. */
  lemma SampleHeaderPlain()
    ensures PlainHeader(SampleHeader)
  {
    var h := SampleHeader;
    assert h[0] == 82 && h[1] == 73 && h[2] == 70 && h[3] == 70;
    assert h[8] == 87 && h[9] == 65 && h[10] == 86 && h[11] == 69;
    assert h[12] == 102 && h[13] == 109 && h[14] == 116 && h[15] == 32;
    assert h[16] == 16 && h[17] == 0 && h[18] == 0 && h[19] == 0;
  }

  /** `SampleBody` is how the sample chunks are written with pad bytes. */
  lemma SampleWritten()
    ensures ChunksOk(SampleChunks) && Serialize(SampleChunks, true) == SampleBody
  {
    assert ChunkBytes(SampleChunks[0], true) == SampleBody[..10];
    assert ChunkBytes(SampleChunks[1], true) == SampleBody[10..];
    assert SampleChunks[1..][1..] == [];
    assert Serialize(SampleChunks[1..], true) == SampleBody[10..];
  }

  /** Walking the sample without pad bytes: "LIST" at 36, then a bogus header at 45 whose size runs past the end. */
  lemma SampleWalkMissesData(f: seq<byte>)
    requires f == SampleHeader + SampleBody
    ensures DataChunk(f, 36, false) == None
  {
    assert f[36] == 76 && f[40] == 1 && f[41] == 0 && f[42] == 0 && f[43] == 0;
    assert f[45] == 0 && f[49] == 97 && f[50] == 2 && f[51] == 0 && f[52] == 0;
    assert !TagAt(f, 36, DataTag) && U32(f, 40) == 1;
    assert !TagAt(f, 45, DataTag) && U32(f, 49) == 609;
    assert DataChunk(f, 45, false) == None;
  }

  /**
   * The file reader misses the "data" chunk of a well-formed RIFF file
   * whose preceding chunk has an odd size: it reads the next chunk header
   * one byte early, takes 609 as its size and runs off the end of the file.
   */
  lemma OddChunkHidesData()
    ensures ChunksOk(SampleChunks) && Serialize(SampleChunks, true) == SampleBody
    ensures ReadWavOf(Some(SampleHeader + SampleBody), false) == (NoSound, NoDataChunk)
    ensures ReadWavOf(Some(SampleHeader + SampleBody), true).0.data == Some([5, 6])
  {
    SampleWritten();
    SampleHeaderPlain();
    var f := SampleHeader + SampleBody;
    HeaderPrefix(SampleHeader, SampleBody);
    SampleReadAsWritten(f);
    assert SampleHeader + [] + Serialize(SampleChunks, true) + [] == f;
    ReadWavRoundTrip(f, SampleHeader, [], SampleChunks, [], true, [5, 6]);
  }

  /** The file reader's result on the sample: no "data" chunk. */
  lemma SampleReadAsWritten(f: seq<byte>)
    requires f == SampleHeader + SampleBody && |f| >= HeaderSize && HeaderOk(f) && U32(f, 16) == 16
    ensures ReadWavOf(Some(f), false) == (NoSound, NoDataChunk)
  {
    assert FirstChunk(f, false) == 36;
    SampleWalkMissesData(f);
  }
}
