/** Model of `wav::WavFileUtils` (include/wav/WavFileUtils.hpp): the chunk
    walker that skips the RIFF pad byte after odd-sized `data` and unknown
    chunks, decodes `fact`, and stores raw samples in memory.

    Each decoder appears twice: as a function `XxxSpec` of the member it
    updates and the stream cursor, saying what the decoder leaves behind,
    and as a method of the class `WavFileUtils` that performs the reads and
    seeks of the code one by one on an `InputStream` and is proved to end in
    the state the function describes. */
module WavUtils {
  import opened ByteStream
  import opened Riff

  /** `Id`: a 4-byte chunk identifier, an array of four bytes. */
  datatype Id = Id(b0: byte, b1: byte, b2: byte, b3: byte)

  /** The identifier's bytes in order. */
  function Bytes(id: Id): (bs: Tag)
    ensures bs[0] == id.b0 && bs[1] == id.b1 && bs[2] == id.b2 && bs[3] == id.b3
  {
    [id.b0, id.b1, id.b2, id.b3]
  }

  /** `Id::fromChars`: the identifier made of the first four characters. */
  function FromChars(chars: seq<byte>): (id: Id)
    requires |chars| >= 4
    ensures Bytes(id) == chars[..4]
  {
    Id(chars[0], chars[1], chars[2], chars[3])
  }

  /** Reading an identifier back from its bytes gives the identifier. */
  lemma {:induction false} FromCharsBytes(id: Id)
    ensures FromChars(Bytes(id)) == id
  {
  }

  /** `operator==` on identifiers: the byte arrays compared element by
      element. */
  function SameId(x: Id, y: Id): (same: bool)
    ensures same <==> x.b0 == y.b0 && x.b1 == y.b1 && x.b2 == y.b2 && x.b3 == y.b3
  {
    x == y
  }

  /** `operator!=` on identifiers. */
  function DifferentId(x: Id, y: Id): (different: bool)
    ensures different <==> x.b0 != y.b0 || x.b1 != y.b1 || x.b2 != y.b2 || x.b3 != y.b3
  {
    !SameId(x, y)
  }

  /** Identifiers are equal exactly when their bytes are, and different
      exactly when some byte differs. */
  lemma {:induction false} SameIdBytes(x: Id, y: Id)
    ensures SameId(x, y) <==> Bytes(x) == Bytes(y)
    ensures DifferentId(x, y) <==> exists i | 0 <= i < 4 :: Bytes(x)[i] != Bytes(y)[i]
  {
  }

  /** The comparison is exact: "fmt" followed by a NUL byte, or by anything
      other than a space, is not the format chunk's identifier. */
  lemma {:induction false} TrailingSpaceMatters(last: byte)
    ensures SameId(FromChars([0x66, 0x6d, 0x74, last]), FromChars(FMT)) <==> last == 0x20
  {
  }

  // Audio format codes (`AudioFormat`).
  const PCM: u16 := 1
  const IEEE_FLOAT: u16 := 3

  /** `FmtChunk`. `sampleRate` and `avgBytesPerSec` are `unsigned long`
      members of which only the low four bytes are ever written, so they
      hold 32-bit values; `chunkSize` is never written by the reader. */
  datatype FmtChunk = FmtChunk(
    chunkSize: u32,
    audioFormat: u16,
    numChannels: u16,
    sampleRate: u32,
    avgBytesPerSec: u32,
    blockAlign: u16,
    bitsPerSample: u16)

  /** `FactChunk`; `chunkSize` is never written by the reader. */
  datatype FactChunk = FactChunk(chunkSize: u32, numSamplesPerChannel: u32)

  /** `DataChunk`: the declared size and the raw sample bytes. */
  datatype DataChunk = DataChunk(chunkSize: u32, sampleDataInBytes: seq<byte>)

  /** `CuePoint`. */
  datatype CuePoint = CuePoint(
    identifier: u32,
    position: u32,
    fccChunk: Id,
    chunkStart: u32,
    blockStart: u32,
    sampleOffset: u32)

  /** `CueChunk`. `numCuePoints` is a `long` of which only the low four bytes
      are ever written, so it holds an unsigned 32-bit value; `chunkSize` is
      never written by the reader. */
  datatype CueChunk = CueChunk(chunkSize: u32, numCuePoints: u32, cuePoints: seq<CuePoint>)

  /** The members of a `WavFileUtils` object that parsing reads and writes. */
  datatype Fields = Fields(fmt: FmtChunk, data: DataChunk, fact: FactChunk, cue: CueChunk, isOpen: bool)

  /** The members of a freshly constructed reader. */
  const INITIAL: Fields :=
    Fields(FmtChunk(0, PCM, 0, 0, 0, 0, 0), DataChunk(0, []), FactChunk(0, 0), CueChunk(0, 0, []), false)

  // ---------------------------------------------------------------- fmt

  datatype FmtResult = FmtResult(ok: bool, fmt: FmtChunk, after: Cursor)

  /** `readFmtChunk`, with the stream at the size field. A short size field
      fails before anything is stored. Otherwise each of the six fields is
      overwritten by whatever its read delivers, and the chunk is accepted
      only when the last of them is complete. */
  function FmtChunkSpec(file: seq<byte>, fmt: FmtChunk, c: Cursor): (r: FmtResult)
    ensures r.after.pos >= c.pos
  {
    if c.failed || c.pos + 4 > |file| then FmtResult(false, fmt, RunEnd(file, c, 4))
    else
      var fmt' := FmtChunk(fmt.chunkSize,
                           Overlay16(fmt.audioFormat, Got(file, c, 4, 2)),
                           Overlay16(fmt.numChannels, Got(file, c, 6, 2)),
                           Overlay32(fmt.sampleRate, Got(file, c, 8, 4)),
                           Overlay32(fmt.avgBytesPerSec, Got(file, c, 12, 4)),
                           Overlay16(fmt.blockAlign, Got(file, c, 16, 2)),
                           Overlay16(fmt.bitsPerSample, Got(file, c, 18, 2)));
      if c.pos + 20 > |file| then FmtResult(false, fmt', RunEnd(file, c, 20))
      else FmtResult(true, fmt', Cursor(c.pos + 4 + Max(U32(Field(file, c, 0, 4)), 16), false))
  }

  /** `readFmtChunk` succeeds exactly when the size field and the 16
      mandatory bytes are all there, whatever size is declared. It then holds
      the six fields in file order, keeps `chunkSize`, and has skipped any
      declared extension bytes but no pad byte. A short size field leaves the
      chunk as it was. */
  lemma {:induction false} FmtChunkDecodes(file: seq<byte>, fmt: FmtChunk, c: Cursor)
    ensures var r := FmtChunkSpec(file, fmt, c);
      && r.fmt.chunkSize == fmt.chunkSize
      && (r.ok <==> !c.failed && c.pos + 20 <= |file|)
      && (c.failed || c.pos + 4 > |file| ==> r.fmt == fmt)
      && (r.ok ==>
            && r.fmt == FmtChunk(fmt.chunkSize,
                                 U16(Field(file, c, 4, 6)), U16(Field(file, c, 6, 8)),
                                 U32(Field(file, c, 8, 12)), U32(Field(file, c, 12, 16)),
                                 U16(Field(file, c, 16, 18)), U16(Field(file, c, 18, 20)))
            && r.after == Cursor(c.pos + 4 + Max(U32(Field(file, c, 0, 4)), 16), false))
  {
  }

  // ---------------------------------------------------------------- data

  /** The formats whose samples the reader accepts. */
  predicate SupportedFormat(format: u16) {
    format == PCM || format == IEEE_FLOAT
  }

  datatype DataResult = DataResult(ok: bool, data: DataChunk, after: Cursor)

  /** `readDataChunk`, with the stream at the size field. The size is read
      straight into the chunk's member; then come the format check and, for
      a positive size, the resize of the sample buffer, the read into its
      front and the pad skip. */
  function DataChunkSpec(file: seq<byte>, fmt: FmtChunk, data: DataChunk, c: Cursor): (r: DataResult)
    ensures r.after.pos >= c.pos
  {
    var data1 := data.(chunkSize := Overlay32(data.chunkSize, Got(file, c, 0, 4)));
    if c.failed || c.pos + 4 > |file| then DataResult(false, data1, RunEnd(file, c, 4))
    else if !SupportedFormat(fmt.audioFormat) then DataResult(false, data1, Cursor(c.pos + 4, false))
    else if data1.chunkSize == 0 then DataResult(true, data1, Cursor(c.pos + 4, false))
    else
      var size: nat := data1.chunkSize;
      var got := Got(file, c, 4, size);
      var data2 := data1.(sampleDataInBytes := got + Resized(data.sampleDataInBytes, size)[|got|..]);
      if c.pos + 4 + size > |file| then DataResult(false, data2, RunEnd(file, c, 4 + size))
      else DataResult(true, data2, Cursor(c.pos + 4 + size + size % 2, false))
  }

  /** `readDataChunk` succeeds exactly when the size field is there, the
      current format is PCM or IEEE float, and all declared payload bytes are
      there. The samples are then exactly those bytes, in order; a zero-size
      chunk leaves the buffer as it was, because the code resizes it only for
      a positive size. The stream moves past the payload and, for an odd
      size, the pad byte. The size member is set whenever the size field is
      complete, also when decoding then fails, and a rejected format leaves
      the samples alone. */
  lemma {:induction false} DataChunkDecodes(file: seq<byte>, fmt: FmtChunk, data: DataChunk, c: Cursor)
    ensures var r := DataChunkSpec(file, fmt, data, c);
      && (r.ok <==> && !c.failed && c.pos + 4 <= |file| && SupportedFormat(fmt.audioFormat)
                    && c.pos + 4 + U32(Field(file, c, 0, 4)) <= |file|)
      && (!c.failed && c.pos + 4 <= |file| ==> r.data.chunkSize == U32(Field(file, c, 0, 4)))
      && (c.failed || c.pos + 4 > |file| || !SupportedFormat(fmt.audioFormat) ==>
            r.data.sampleDataInBytes == data.sampleDataInBytes)
      && (r.ok && r.data.chunkSize > 0 ==> r.data.sampleDataInBytes == Field(file, c, 4, 4 + r.data.chunkSize))
      && (r.ok && r.data.chunkSize == 0 ==> r.data.sampleDataInBytes == data.sampleDataInBytes)
      && (r.ok ==> r.after == Cursor(c.pos + 4 + r.data.chunkSize + r.data.chunkSize % 2, false))
  {
    if !c.failed && c.pos + 4 <= |file| && SupportedFormat(fmt.audioFormat) {
      var size: nat := U32(Field(file, c, 0, 4));
      if size > 0 && c.pos + 4 + size <= |file| {
        var got := Got(file, c, 4, size);
        assert got + Resized(data.sampleDataInBytes, size)[|got|..] == got;
      }
    }
  }

  // ---------------------------------------------------------------- fact

  datatype FactResult = FactResult(ok: bool, fact: FactChunk, after: Cursor)

  /** `readFactChunk`, with the stream at the size field: the size read and
      ignored, then the sample count read into the chunk's member. */
  function FactChunkSpec(file: seq<byte>, fact: FactChunk, c: Cursor): (r: FactResult)
    ensures r.after.pos >= c.pos
  {
    if c.failed || c.pos + 4 > |file| then FactResult(false, fact, RunEnd(file, c, 4))
    else
      var fact' := fact.(numSamplesPerChannel := Overlay32(fact.numSamplesPerChannel, Got(file, c, 4, 4)));
      FactResult(c.pos + 8 <= |file|, fact', RunEnd(file, c, 8))
  }

  /** `readFactChunk` consumes exactly the size field and a 4-byte sample
      count, whatever size is declared, stores the count, and fails on
      either short read. */
  lemma {:induction false} FactChunkDecodes(file: seq<byte>, fact: FactChunk, c: Cursor)
    ensures var r := FactChunkSpec(file, fact, c);
      && r.fact.chunkSize == fact.chunkSize
      && (r.ok <==> !c.failed && c.pos + 8 <= |file|)
      && (c.failed || c.pos + 4 > |file| ==> r.fact == fact)
      && (r.ok ==> r.fact == fact.(numSamplesPerChannel := U32(Field(file, c, 4, 8)))
                   && r.after == Cursor(c.pos + 8, false))
  {
  }

  // ---------------------------------------------------------------- cue

  /** The six little-endian fields of the 24-byte cue point record at p. */
  function DecodeCuePoint(file: seq<byte>, p: nat): (point: CuePoint)
    requires p + 24 <= |file|
    ensures Bytes(point.fccChunk) == file[p + 8..p + 12]
  {
    CuePoint(U32(file[p..p + 4]), U32(file[p + 4..p + 8]), FromChars(file[p + 8..p + 12]),
             U32(file[p + 12..p + 16]), U32(file[p + 16..p + 20]), U32(file[p + 20..p + 24]))
  }

  /** Reference decoding of a run of k cue point records from p: the records
      before the first one that is short or refers to another chunk,
      decoded. */
  function GoodPrefix(file: seq<byte>, p: nat, k: nat): (ps: seq<CuePoint>)
    decreases k
    ensures |ps| <= k
  {
    if k == 0 || !CueRecordOk(file, p) then [] else [DecodeCuePoint(file, p)] + GoodPrefix(file, p + 24, k - 1)
  }

  /** Each point of `GoodPrefix` is the matching record, which is good,
      decoded. */
  lemma {:induction false} GoodPrefixPoints(file: seq<byte>, p: nat, k: nat)
    ensures forall j | 0 <= j < |GoodPrefix(file, p, k)| ::
              CueRecordOk(file, RecordAt(p, j)) && GoodPrefix(file, p, k)[j] == DecodeCuePoint(file, RecordAt(p, j))
    decreases k
  {
    if k > 0 && CueRecordOk(file, p) {
      var tail := GoodPrefix(file, p + 24, k - 1);
      GoodPrefixPoints(file, p + 24, k - 1);
      assert GoodPrefix(file, p, k) == [DecodeCuePoint(file, p)] + tail;
      assert RecordAt(p, 0) == p;
      forall j | 0 < j < |GoodPrefix(file, p, k)|
        ensures CueRecordOk(file, RecordAt(p, j)) && GoodPrefix(file, p, k)[j] == DecodeCuePoint(file, RecordAt(p, j))
      {
        assert GoodPrefix(file, p, k)[j] == tail[j - 1];
        assert RecordAt(p + 24, j - 1) == RecordAt(p, j);
      }
    }
  }

  /** `GoodPrefix` is complete exactly when all k records are good, and when
      it is not, the record after its last point is bad. */
  lemma {:induction false} GoodPrefixComplete(file: seq<byte>, p: nat, k: nat)
    ensures |GoodPrefix(file, p, k)| == k <==> RecordsOk(file, p, k)
    ensures |GoodPrefix(file, p, k)| < k ==> !CueRecordOk(file, RecordAt(p, |GoodPrefix(file, p, k)|))
    decreases k
  {
    assert RecordAt(p, 0) == p;
    if k > 0 && CueRecordOk(file, p) {
      var n := |GoodPrefix(file, p + 24, k - 1)|;
      GoodPrefixComplete(file, p + 24, k - 1);
      assert |GoodPrefix(file, p, k)| == 1 + n;
      assert RecordAt(p + 24, n) == RecordAt(p, n + 1);
    }
  }

  /** The outcome of `readCuePoint`: the point it filled in, or a rejection,
      with where the stream is left. */
  datatype PointResult = Rejected(after: Cursor) | Accepted(point: CuePoint, after: Cursor)

  /** `readCuePoint`: six 4-byte reads, with the source chunk tag checked
      after the third, so a record naming another chunk is rejected after 12
      bytes and a record cut short after its end. */
  function CuePointSpec(file: seq<byte>, c: Cursor): (r: PointResult)
    ensures r.after.pos >= c.pos
  {
    if c.failed || c.pos + 12 > |file| || file[c.pos + 8..c.pos + 12] != DATA then Rejected(RunEnd(file, c, 12))
    else if c.pos + 24 > |file| then Rejected(RunEnd(file, c, 24))
    else Accepted(DecodeCuePoint(file, c.pos), Cursor(c.pos + 24, false))
  }

  /** `readCuePoint` accepts exactly a whole record that refers to "data",
      yielding that record decoded; a record naming another chunk is
      rejected with the stream just past its tag. */
  lemma {:induction false} CuePointDecodes(file: seq<byte>, c: Cursor)
    ensures var r := CuePointSpec(file, c);
      && (r.Accepted? <==> !c.failed && CueRecordOk(file, c.pos))
      && (r.Accepted? ==> r.point == DecodeCuePoint(file, c.pos) && r.after == Cursor(c.pos + 24, false))
      && (!c.failed && c.pos + 12 <= |file| && file[c.pos + 8..c.pos + 12] != DATA ==>
            r == Rejected(Cursor(c.pos + 12, false)))
  {
  }

  datatype PointsResult = PointsResult(ok: bool, points: seq<CuePoint>, after: Cursor)

  /** The loop of `readCueChunk` with k points still to read, appending each
      point read to `points` and stopping at the first rejection. */
  function CuePointsSpec(file: seq<byte>, points: seq<CuePoint>, k: nat, c: Cursor): (r: PointsResult)
    decreases k
    ensures r.after.pos >= c.pos
  {
    if k == 0 then PointsResult(true, points, c)
    else
      match CuePointSpec(file, c)
      case Rejected(after) => PointsResult(false, points, after)
      case Accepted(point, after) => CuePointsSpec(file, points + [point], k - 1, after)
  }

  /** What the loop appends is the reference decoding of the next k records,
      and it succeeds exactly when all k are good, having then consumed
      24 bytes per record. */
  lemma {:induction false} CuePointsDecode(file: seq<byte>, points: seq<CuePoint>, k: nat, c: Cursor)
    ensures var r := CuePointsSpec(file, points, k, c);
      && (!c.failed ==> r.points == points + GoodPrefix(file, c.pos, k))
      && (c.failed ==> r.points == points)
      && (r.ok <==> k == 0 || (!c.failed && RecordsOk(file, c.pos, k)))
      && (r.ok ==> r.after == if k == 0 then c else Cursor(c.pos + 24 * k, false))
    decreases k
  {
    if k == 0 {
      assert points + [] == points;
    } else {
      CuePointDecodes(file, c);
      match CuePointSpec(file, c)
      case Accepted(point, after) =>
        CuePointsDecode(file, points + [point], k - 1, after);
        AppendAssoc(points, [point], GoodPrefix(file, c.pos + 24, k - 1));
      case Rejected(_) =>
        assert points + [] == points;
    }
  }

  datatype CueResult = CueResult(ok: bool, cue: CueChunk, after: Cursor)

  /** `readCueChunk`, with the stream at the size field: the size read and
      ignored, the unchecked read of the point count into the chunk's
      member, and the loop over that many points. */
  function CueChunkSpec(file: seq<byte>, cue: CueChunk, c: Cursor): (r: CueResult)
    ensures r.cue.chunkSize == cue.chunkSize
    ensures r.after.pos >= c.pos
  {
    if c.failed || c.pos + 4 > |file| then CueResult(false, cue, RunEnd(file, c, 4))
    else
      var n := Overlay32(cue.numCuePoints, Got(file, c, 4, 4));
      var l := CuePointsSpec(file, cue.cuePoints, n, RunEnd(file, c, 8));
      CueResult(l.ok, cue.(numCuePoints := n, cuePoints := l.points), l.after)
  }

  /** `readCueChunk` on a short chunk. A short size field fails with nothing
      stored. A short count field leaves the count with its old bytes beyond
      those read, appends nothing, and succeeds only if that count is
      zero. */
  lemma {:induction false} CueChunkShort(file: seq<byte>, cue: CueChunk, c: Cursor)
    ensures var r := CueChunkSpec(file, cue, c);
      && (c.failed || c.pos + 4 > |file| ==> !r.ok && r.cue == cue)
      && (!c.failed && c.pos + 4 <= |file| < c.pos + 8 ==>
            && r.cue == cue.(numCuePoints := Overlay32(cue.numCuePoints, file[c.pos + 4..]))
            && (r.ok <==> r.cue.numCuePoints == 0))
  {
    if !c.failed && c.pos + 4 <= |file| < c.pos + 8 {
      var n := Overlay32(cue.numCuePoints, Got(file, c, 4, 4));
      assert Got(file, c, 4, 4) == file[c.pos + 4..];
      CuePointsDecode(file, cue.cuePoints, n, RunEnd(file, c, 8));
    }
  }

  /** `readCueChunk` with a complete count field: the count is stored, the
      reference decoding of that many records is appended, and the decoder
      succeeds exactly when all of them are good, ending after the last. */
  lemma {:induction false} CueChunkDecodes(file: seq<byte>, cue: CueChunk, c: Cursor)
    requires !c.failed && c.pos + 8 <= |file|
    ensures var r := CueChunkSpec(file, cue, c);
      && r.cue.numCuePoints == U32(Field(file, c, 4, 8))
      && r.cue.cuePoints == cue.cuePoints + GoodPrefix(file, c.pos + 8, r.cue.numCuePoints)
      && (r.ok <==> RecordsOk(file, c.pos + 8, r.cue.numCuePoints))
      && (r.ok ==> r.after == Cursor(c.pos + 8 + 24 * r.cue.numCuePoints, false))
  {
    var n := Overlay32(cue.numCuePoints, Got(file, c, 4, 4));
    CuePointsDecode(file, cue.cuePoints, n, RunEnd(file, c, 8));
  }

  // ---------------------------------------------------------------- skip

  datatype SkipResult = SkipResult(ok: bool, after: Cursor)

  /** `skipChunk`, with the stream at the size field: the size read, then
      the seek over the payload and, for an odd size, over the pad byte.
      Seeking past the end of the file leaves the stream good. */
  function SkipChunkSpec(file: seq<byte>, c: Cursor): (r: SkipResult)
    ensures r.after.pos >= c.pos
  {
    if c.failed || c.pos + 4 > |file| then SkipResult(false, RunEnd(file, c, 4))
    else
      var size := U32(Field(file, c, 0, 4));
      SkipResult(true, Cursor(c.pos + 4 + size + size % 2, false))
  }

  /** `skipChunk` fails only when the size field is short; otherwise the
      stream stays good, also past the end of the file, and has moved past
      the size field, the payload and, for an odd size, the pad byte. */
  lemma {:induction false} SkipChunkDecodes(file: seq<byte>, c: Cursor)
    ensures var r := SkipChunkSpec(file, c);
      && (r.ok <==> !c.failed && c.pos + 4 <= |file|)
      && (r.ok ==> var size := U32(Field(file, c, 0, 4));
                   r.after == Cursor(c.pos + 4 + size + size % 2, false))
  {
  }

  // ---------------------------------------------------------------- open

  /** The tags the loop names but only skips. */
  predicate Skippable(id: Id): (named: bool)
    ensures named <==> Bytes(id) in SKIPPABLE
  {
    || SameId(id, FromChars(JUNK)) || SameId(id, FromChars(LIST))
    || SameId(id, FromChars(INFO)) || SameId(id, FromChars(SMPL))
    || SameId(id, FromChars(INST)) || SameId(id, FromChars(BEXT))
    || SameId(id, FromChars(IXML))
  }

  datatype ChunkResult = ChunkResult(ok: bool, fields: Fields, after: Cursor)

  /** One turn of the dispatch in `open`, with the stream just after the tag
      `id`: the decoder the tag selects, applied to the member it updates. */
  function ChunkSpec(file: seq<byte>, f: Fields, id: Id, c: Cursor): (r: ChunkResult)
    ensures r.after.pos >= c.pos
    ensures r.fields.isOpen == f.isOpen
  {
    if SameId(id, FromChars(FMT)) then
      var r := FmtChunkSpec(file, f.fmt, c);
      ChunkResult(r.ok, f.(fmt := r.fmt), r.after)
    else if SameId(id, FromChars(DATA)) then
      var r := DataChunkSpec(file, f.fmt, f.data, c);
      ChunkResult(r.ok, f.(data := r.data), r.after)
    else if SameId(id, FromChars(FACT)) then
      var r := FactChunkSpec(file, f.fact, c);
      ChunkResult(r.ok, f.(fact := r.fact), r.after)
    else if SameId(id, FromChars(CUE)) then
      var r := CueChunkSpec(file, f.cue, c);
      ChunkResult(r.ok, f.(cue := r.cue), r.after)
    else if Skippable(id) then
      var r := SkipChunkSpec(file, c);
      ChunkResult(r.ok, f, r.after)
    else
      var r := SkipChunkSpec(file, c);
      ChunkResult(r.ok, f, r.after)
  }

  /** The identifiers with a decoder of their own. */
  predicate Decoded(id: Id): (decoded: bool)
    ensures decoded ==> !Skippable(id)
  {
    SameId(id, FromChars(FMT)) || SameId(id, FromChars(DATA)) || SameId(id, FromChars(FACT)) || SameId(id, FromChars(CUE))
  }

  /** A tag without a decoder of its own selects the generic skipper. */
  lemma {:induction false} NotDecodedSkips(file: seq<byte>, f: Fields, id: Id, c: Cursor)
    requires !Decoded(id)
    ensures ChunkSpec(file, f, id, c) == ChunkResult(SkipChunkSpec(file, c).ok, f, SkipChunkSpec(file, c).after)
  {
  }

  /** The tags the loop names but only skips are treated exactly like any
      other tag without a decoder. */
  lemma {:induction false} SkippableLikeUnknown(file: seq<byte>, f: Fields, id: Id, other: Id, c: Cursor)
    requires Skippable(id) && !Decoded(other)
    ensures ChunkSpec(file, f, id, c) == ChunkSpec(file, f, other, c)
    ensures ChunkSpec(file, f, id, c) == ChunkResult(SkipChunkSpec(file, c).ok, f, SkipChunkSpec(file, c).after)
  {
    assert id.b0 in {0x4a, 0x4c, 0x49, 0x73, 0x69, 0x62};
    assert !Decoded(id);
  }

  datatype Walked = Walked(completed: bool, foundFmt: bool, fields: Fields)

  /** The chunk loop of `open` from the cursor c: while the stream is good a
      4-byte tag is read, a short tag read ends the loop normally, and a
      decoder failure ends it with `completed` false. `foundFmt` records
      whether an `fmt ` chunk was decoded. The loop terminates because every
      turn that goes on has consumed a tag and moved forward, and a stream
      sought past the end fails its next tag read. */
  function Walk(file: seq<byte>, f: Fields, c: Cursor, found: bool): (w: Walked)
    ensures w.fields.isOpen == f.isOpen
    decreases Remaining(file, c)
  {
    if c.failed || c.pos + 4 > |file| then Walked(true, found, f)
    else
      var id := FromChars(file[c.pos..c.pos + 4]);
      var r := ChunkSpec(file, f, id, Cursor(c.pos + 4, false));
      if !r.ok then Walked(false, found, r.fields)
      else Walk(file, r.fields, r.after, found || SameId(id, FromChars(FMT)))
  }

  /** One turn of the loop, for a stream that has a whole tag left. */
  lemma {:induction false} WalkStep(file: seq<byte>, f: Fields, c: Cursor, found: bool)
    requires !c.failed && c.pos + 4 <= |file|
    ensures var id := FromChars(file[c.pos..c.pos + 4]);
            var r := ChunkSpec(file, f, id, Cursor(c.pos + 4, false));
            Walk(file, f, c, found) == if !r.ok then Walked(false, found, r.fields)
                                       else Walk(file, r.fields, r.after, found || SameId(id, FromChars(FMT)))
  {
  }

  datatype Opened = Opened(ok: bool, fields: Fields)

  /** `open` on a file with the given bytes: the 12-byte envelope, the chunk
      loop from byte 12, and the check that a format chunk was decoded,
      which alone sets `isOpen`. */
  function OpenSpec(file: seq<byte>, f: Fields): (r: Opened)
    ensures !HeaderOk(file) ==> r == Opened(false, f)
    ensures r.ok ==> r.fields.isOpen
    ensures !r.ok ==> r.fields.isOpen == f.isOpen
  {
    if !HeaderOk(file) then Opened(false, f)
    else
      var w := Walk(file, f, Cursor(12, false), false);
      var ok := w.completed && w.foundFmt;
      Opened(ok, w.fields.(isOpen := f.isOpen || ok))
  }

  // ------------------------------------------------------- walk properties

  /** A short tag read, or a stream that is no longer good, ends the loop
      normally with nothing changed. */
  lemma {:induction false} WalkEndsCleanly(file: seq<byte>, f: Fields, c: Cursor, found: bool)
    requires c.failed || c.pos + 4 > |file|
    ensures Walk(file, f, c, found) == Walked(true, found, f)
  {
  }

  /** A decoder failure ends the loop with `completed` false, which makes
      `open` return false. */
  lemma {:induction false} DecoderFailureAborts(file: seq<byte>, f: Fields, c: Cursor, found: bool)
    requires !c.failed && c.pos + 4 <= |file|
    requires !ChunkSpec(file, f, FromChars(file[c.pos..c.pos + 4]), Cursor(c.pos + 4, false)).ok
    ensures !Walk(file, f, c, found).completed
  {
    WalkStep(file, f, c, found);
  }

  /** The turn of the loop at a chunk without a decoder of its own, whose
      size field is complete, goes on with the members as they were, past the
      size field, the payload and the pad byte of an odd size. */
  lemma {:induction false} UnknownChunkSkipped(file: seq<byte>, f: Fields, id: Id, d: Cursor)
    requires !d.failed && d.pos + 4 <= |file| && !Decoded(id)
    ensures var size := U32(file[d.pos..d.pos + 4]);
            ChunkSpec(file, f, id, d) == ChunkResult(true, f, Cursor(d.pos + 4 + size + size % 2, false))
    ensures !SameId(id, FromChars(FMT))
  {
    NotDecodedSkips(file, f, id, d);
    SkipChunkDecodes(file, d);
    assert Field(file, d, 0, 4) == file[d.pos..d.pos + 4];
  }

  /** A complete `fmt ` chunk header with its 16 mandatory bytes at q. */
  predicate FmtChunkAt(file: seq<byte>, q: nat) {
    q + 24 <= |file| && file[q..q + 4] == FMT
  }

  /** The loop reports a decoded format chunk only if one lies ahead, and a
      loop that completes without one leaves the format members alone. */
  lemma {:induction false} WalkFmt(file: seq<byte>, f: Fields, c: Cursor, found: bool)
    ensures var w := Walk(file, f, c, found);
      && (w.foundFmt && !found ==> exists q | c.pos <= q :: FmtChunkAt(file, q))
      && (w.completed && !w.foundFmt ==> !found && w.fields.fmt == f.fmt)
    decreases Remaining(file, c)
  {
    if !c.failed && c.pos + 4 <= |file| {
      WalkStep(file, f, c, found);
      var id := FromChars(file[c.pos..c.pos + 4]);
      var d := Cursor(c.pos + 4, false);
      var r := ChunkSpec(file, f, id, d);
      if r.ok {
        var isFmt := SameId(id, FromChars(FMT));
        WalkFmt(file, r.fields, r.after, found || isFmt);
        if isFmt {
          FmtChunkDecodes(file, f.fmt, d);
          assert file[c.pos..c.pos + 4] == FMT;
          assert FmtChunkAt(file, c.pos);
        }
      }
    }
  }

  /** Cue points are only ever appended: whatever the file, the points the
      members held before the walk are still there, first, after it. */
  lemma {:induction false} WalkKeepsCuePoints(file: seq<byte>, f: Fields, c: Cursor, found: bool)
    ensures f.cue.cuePoints <= Walk(file, f, c, found).fields.cue.cuePoints
    decreases Remaining(file, c)
  {
    if !c.failed && c.pos + 4 <= |file| {
      WalkStep(file, f, c, found);
      var id := FromChars(file[c.pos..c.pos + 4]);
      var d := Cursor(c.pos + 4, false);
      var r := ChunkSpec(file, f, id, d);
      ChunkKeepsCuePoints(file, f, id, d);
      if r.ok {
        WalkKeepsCuePoints(file, r.fields, r.after, found || SameId(id, FromChars(FMT)));
      }
    }
  }

  /** One decoder, whichever the tag selects, keeps the cue points held
      before. */
  lemma {:induction false} ChunkKeepsCuePoints(file: seq<byte>, f: Fields, id: Id, d: Cursor)
    ensures f.cue.cuePoints <= ChunkSpec(file, f, id, d).fields.cue.cuePoints
  {
    CueKeepsPoints(file, f.cue, d);
  }

  /** `readCueChunk` only appends to the points it already holds. */
  lemma {:induction false} CueKeepsPoints(file: seq<byte>, cue: CueChunk, c: Cursor)
    ensures cue.cuePoints <= CueChunkSpec(file, cue, c).cue.cuePoints
  {
    if !c.failed && c.pos + 4 <= |file| {
      var n := Overlay32(cue.numCuePoints, Got(file, c, 4, 4));
      CuePointsDecode(file, cue.cuePoints, n, RunEnd(file, c, 8));
    }
  }

  /** `open` succeeds only on a file that has the envelope and a complete
      `fmt ` chunk after it; on success `isOpen` is set, otherwise it keeps
      its old value and the cue points held before stay in place. */
  lemma {:induction false} OpenNeedsFmt(file: seq<byte>, f: Fields)
    ensures var r := OpenSpec(file, f);
      && (r.ok ==> HeaderOk(file) && r.fields.isOpen && exists q | 12 <= q :: FmtChunkAt(file, q))
      && (!r.ok ==> r.fields.isOpen == f.isOpen)
      && f.cue.cuePoints <= r.fields.cue.cuePoints
  {
    if HeaderOk(file) {
      WalkFmt(file, f, Cursor(12, false), false);
      WalkKeepsCuePoints(file, f, Cursor(12, false), false);
    }
  }

  // ------------------------------------- what the parse reads of the file

  /** Two files of the same length that agree from position q on. */
  predicate SameFrom(file1: seq<byte>, file2: seq<byte>, q: nat) {
    |file1| == |file2| && q <= |file1| && file1[q..] == file2[q..]
  }

  lemma {:induction false} SameFromBytes(file1: seq<byte>, file2: seq<byte>, q: nat)
    requires SameFrom(file1, file2, q)
    ensures forall a, b | q <= a <= b <= |file1| :: file1[a..b] == file2[a..b]
    ensures forall c: Cursor, off: nat, k: nat | q <= c.pos :: Got(file1, c, off, k) == Got(file2, c, off, k)
  {
    forall a, b | q <= a <= b <= |file1| ensures file1[a..b] == file2[a..b] {
      forall i | a <= i < b ensures file1[i] == file2[i] {
        assert file1[i] == file1[q..][i - q];
        assert file2[i] == file2[q..][i - q];
      }
    }
  }

  /** The loop over cue points reads nothing before its cursor. */
  lemma {:induction false} CuePointsSame(file1: seq<byte>, file2: seq<byte>, q: nat, points: seq<CuePoint>, k: nat, c: Cursor)
    requires SameFrom(file1, file2, q) && q <= c.pos
    ensures CuePointsSpec(file1, points, k, c) == CuePointsSpec(file2, points, k, c)
    decreases k
  {
    if k > 0 {
      SameFromBytes(file1, file2, q);
      assert CuePointSpec(file1, c) == CuePointSpec(file2, c);
      match CuePointSpec(file1, c)
      case Accepted(point, after) =>
        CuePointsSame(file1, file2, q, points + [point], k - 1, after);
      case Rejected(_) =>
    }
  }

  /** Each decoder reads nothing before its cursor. */
  lemma {:induction false} FmtSame(file1: seq<byte>, file2: seq<byte>, q: nat, fmt: FmtChunk, c: Cursor)
    requires SameFrom(file1, file2, q) && q <= c.pos
    ensures FmtChunkSpec(file1, fmt, c) == FmtChunkSpec(file2, fmt, c)
  {
    SameFromBytes(file1, file2, q);
  }

  lemma {:induction false} DataSame(file1: seq<byte>, file2: seq<byte>, q: nat, fmt: FmtChunk, data: DataChunk, c: Cursor)
    requires SameFrom(file1, file2, q) && q <= c.pos
    ensures DataChunkSpec(file1, fmt, data, c) == DataChunkSpec(file2, fmt, data, c)
  {
    SameFromBytes(file1, file2, q);
  }

  lemma {:induction false} FactSame(file1: seq<byte>, file2: seq<byte>, q: nat, fact: FactChunk, c: Cursor)
    requires SameFrom(file1, file2, q) && q <= c.pos
    ensures FactChunkSpec(file1, fact, c) == FactChunkSpec(file2, fact, c)
  {
    SameFromBytes(file1, file2, q);
  }

  lemma {:induction false} SkipSame(file1: seq<byte>, file2: seq<byte>, q: nat, c: Cursor)
    requires SameFrom(file1, file2, q) && q <= c.pos
    ensures SkipChunkSpec(file1, c) == SkipChunkSpec(file2, c)
  {
    SameFromBytes(file1, file2, q);
  }

  lemma {:induction false} CueSame(file1: seq<byte>, file2: seq<byte>, q: nat, cue: CueChunk, c: Cursor)
    requires SameFrom(file1, file2, q) && q <= c.pos
    ensures CueChunkSpec(file1, cue, c) == CueChunkSpec(file2, cue, c)
  {
    SameFromBytes(file1, file2, q);
    if !c.failed && c.pos + 4 <= |file1| {
      CuePointsSame(file1, file2, q, cue.cuePoints, Overlay32(cue.numCuePoints, Got(file1, c, 4, 4)), RunEnd(file1, c, 8));
    }
  }

  /** Each turn of the loop reads nothing before its cursor. */
  lemma {:induction false} ChunkSame(file1: seq<byte>, file2: seq<byte>, q: nat, f: Fields, id: Id, c: Cursor)
    requires SameFrom(file1, file2, q) && q <= c.pos
    ensures ChunkSpec(file1, f, id, c) == ChunkSpec(file2, f, id, c)
  {
    FmtSame(file1, file2, q, f.fmt, c);
    DataSame(file1, file2, q, f.fmt, f.data, c);
    FactSame(file1, file2, q, f.fact, c);
    CueSame(file1, file2, q, f.cue, c);
    SkipSame(file1, file2, q, c);
  }

  /** The loop reads nothing before its cursor. */
  lemma {:induction false} WalkSame(file1: seq<byte>, file2: seq<byte>, q: nat, f: Fields, c: Cursor, found: bool)
    requires SameFrom(file1, file2, q) && q <= c.pos
    ensures Walk(file1, f, c, found) == Walk(file2, f, c, found)
    decreases Remaining(file1, c)
  {
    if !c.failed && c.pos + 4 <= |file1| {
      SameFromBytes(file1, file2, q);
      WalkStep(file1, f, c, found);
      WalkStep(file2, f, c, found);
      var id := FromChars(file1[c.pos..c.pos + 4]);
      ChunkSame(file1, file2, q, f, id, Cursor(c.pos + 4, false));
      var r := ChunkSpec(file1, f, id, Cursor(c.pos + 4, false));
      if r.ok {
        WalkSame(file1, file2, q, r.fields, r.after, found || SameId(id, FromChars(FMT)));
      }
    }
  }

  /** Bytes 4 to 7, the RIFF size, are never inspected: replacing them
      changes nothing about `open`. */
  lemma {:induction false} RiffSizeIgnored(file: seq<byte>, size: seq<byte>, f: Fields)
    requires |file| >= 8 && |size| == 4
    ensures OpenSpec(file[..4] + size + file[8..], f) == OpenSpec(file, f)
  {
    var file' := file[..4] + size + file[8..];
    assert file'[8..] == file[8..];
    assert file'[..4] == file[..4];
    assert SameFrom(file', file, 8);
    if |file| >= 12 {
      assert file'[8..12] == file[8..12];
      WalkSame(file', file, 8, f, Cursor(12, false), false);
    }
  }

  /** The class itself: the chunk members, `isOpen_`, and the decoders. */
  class WavFileUtils {
    var fmt: FmtChunk
    var data: DataChunk
    var fact: FactChunk
    var cue: CueChunk
    var isOpen: bool

    function Members(): Fields
      reads this
    {
      Fields(fmt, data, fact, cue, isOpen)
    }

    constructor ()
      ensures Members() == INITIAL
    {
      fmt := INITIAL.fmt;
      data := INITIAL.data;
      fact := INITIAL.fact;
      cue := INITIAL.cue;
      isOpen := false;
    }

    function IsOpen(): bool
      reads this
    {
      isOpen
    }

    function GetNumChannels(): u16
      reads this
    {
      fmt.numChannels
    }

    function GetSampleRate(): u32
      reads this
    {
      fmt.sampleRate
    }

    function GetBitsPerSample(): u16
      reads this
    {
      fmt.bitsPerSample
    }

    function GetAudioFormat(): u16
      reads this
    {
      fmt.audioFormat
    }

    function GetRawSampleData(): seq<byte>
      reads this
    {
      data.sampleDataInBytes
    }

    function GetFmtChunk(): FmtChunk
      reads this
    {
      fmt
    }

    function GetDataChunk(): DataChunk
      reads this
    {
      data
    }

    function GetFactChunk(): FactChunk
      reads this
    {
      fact
    }

    function GetCueChunk(): CueChunk
      reads this
    {
      cue
    }

    /** `open` over a file with the given contents. */
    method Open(contents: seq<byte>) returns (ok: bool)
      modifies this
      ensures Opened(ok, Members()) == OpenSpec(contents, old(Members()))
    {
      var file := new InputStream(contents);
      ReadStep(contents, START, 0, 12);
      var header := file.Read(12);
      if |header| != 12 {
        return false;
      }
      if header[..4] != RIFF {
        return false;
      }
      if header[8..12] != WAVE {
        return false;
      }
      var completed, foundFmtChunk := WalkChunks(file);
      if !completed {
        return false;
      }
      if !foundFmtChunk {
        return false;
      }
      isOpen := true;
      return true;
    }

    /** The `while (file.good())` loop of `open`; `completed` is false when
        a decoder failed, which makes `open` return false at once. */
    method WalkChunks(file: InputStream) returns (completed: bool, foundFmtChunk: bool)
      modifies this`fmt, this`data, this`fact, this`cue, file
      ensures Walked(completed, foundFmtChunk, Members()) == Walk(file.contents, old(Members()), old(file.State()), false)
    {
      ghost var contents := file.contents;
      ghost var walked := Walk(contents, Members(), file.State(), false);
      foundFmtChunk := false;
      while !file.failed
        invariant file.contents == contents
        invariant Walk(contents, Members(), file.State(), foundFmtChunk) == walked
        decreases Remaining(contents, file.State())
      {
        ghost var c := file.State();
        RunEndZero(contents, c);
        ReadStep(contents, c, 0, 4);
        var tag := file.Read(4);
        if |tag| != 4 {
          break;
        }
        var chunkId := FromChars(tag);
        WalkStep(contents, Members(), c, foundFmtChunk);
        var decoded := DispatchChunk(file, chunkId);
        if !decoded {
          return false, foundFmtChunk;
        }
        if SameId(chunkId, FromChars(FMT)) {
          foundFmtChunk := true;
        }
      }
      return true, foundFmtChunk;
    }

    /** The `if`/`else if` chain of the loop in `open`, with the stream just
        after the tag: each decoder's failure is the loop's. */
    method DispatchChunk(file: InputStream, chunkId: Id) returns (ok: bool)
      modifies this`fmt, this`data, this`fact, this`cue, file
      ensures ChunkResult(ok, Members(), file.State()) == ChunkSpec(file.contents, old(Members()), chunkId, old(file.State()))
    {
      if SameId(chunkId, FromChars(FMT)) {
        ok := ReadFmtChunk(file);
      } else if SameId(chunkId, FromChars(DATA)) {
        ok := ReadDataChunk(file);
      } else if SameId(chunkId, FromChars(FACT)) {
        ok := ReadFactChunk(file);
      } else if SameId(chunkId, FromChars(CUE)) {
        ok := ReadCueChunk(file);
      } else if Skippable(chunkId) {
        // Known-but-not-parsed chunks.
        ok := SkipChunk(file);
      } else {
        // Unknown or vendor-specific chunks.
        ok := SkipChunk(file);
      }
    }

    /** `readFmtChunk`. */
    method ReadFmtChunk(file: InputStream) returns (ok: bool)
      modifies this`fmt, file
      ensures FmtResult(ok, fmt, file.State()) == FmtChunkSpec(file.contents, old(fmt), old(file.State()))
    {
      ghost var bytes, c := file.contents, file.State();
      RunEndZero(bytes, c);
      ReadStep(bytes, c, 0, 4);
      var sizeField := file.Read(4);
      if |sizeField| != 4 {
        return false;
      }
      var chunkSize := U32(sizeField);
      assert chunkSize == U32(Field(bytes, c, 0, 4));
      ReadStep(bytes, c, 4, 2);
      var got := file.Read(2);
      fmt := fmt.(audioFormat := Overlay16(fmt.audioFormat, got));
      ReadStep(bytes, c, 6, 2);
      got := file.Read(2);
      fmt := fmt.(numChannels := Overlay16(fmt.numChannels, got));
      ReadStep(bytes, c, 8, 4);
      got := file.Read(4);
      fmt := fmt.(sampleRate := Overlay32(fmt.sampleRate, got));
      ReadStep(bytes, c, 12, 4);
      got := file.Read(4);
      fmt := fmt.(avgBytesPerSec := Overlay32(fmt.avgBytesPerSec, got));
      assert fmt == old(fmt).(audioFormat := fmt.audioFormat, numChannels := fmt.numChannels,
                              sampleRate := fmt.sampleRate, avgBytesPerSec := fmt.avgBytesPerSec);
      ReadStep(bytes, c, 16, 2);
      got := file.Read(2);
      fmt := fmt.(blockAlign := Overlay16(fmt.blockAlign, got));
      ReadStep(bytes, c, 18, 2);
      got := file.Read(2);
      fmt := fmt.(bitsPerSample := Overlay16(fmt.bitsPerSample, got));
      if |got| != 2 {
        return false;
      }
      assert file.State() == Cursor(c.pos + 20, false);
      assert fmt == FmtChunkSpec(bytes, old(fmt), c).fmt;
      if chunkSize > 16 {
        file.SeekG(chunkSize - 16);
      }
      assert file.State() == Cursor(c.pos + 4 + Max(chunkSize, 16), false);
      return true;
    }

    /** `readDataChunk`. */
    method ReadDataChunk(file: InputStream) returns (ok: bool)
      modifies this`data, file
      ensures DataResult(ok, data, file.State()) == DataChunkSpec(file.contents, fmt, old(data), old(file.State()))
    {
      ghost var bytes, c, data0 := file.contents, file.State(), data;
      RunEndZero(bytes, c);
      ReadStep(bytes, c, 0, 4);
      var sizeField := file.Read(4);
      data := data.(chunkSize := Overlay32(data.chunkSize, sizeField));
      if |sizeField| != 4 {
        return false;
      }
      if fmt.audioFormat != PCM && fmt.audioFormat != IEEE_FLOAT {
        return false;
      }
      if data.chunkSize > 0 {
        var size: nat := data.chunkSize;
        data := data.(sampleDataInBytes := Resized(data.sampleDataInBytes, size));
        ReadStep(bytes, c, 4, size);
        var samples := file.Read(size);
        data := data.(sampleDataInBytes := samples + data.sampleDataInBytes[|samples|..]);
        if |samples| != size {
          return false;
        }
      }
      if data.chunkSize % 2 == 1 {
        file.SeekG(1);
      }
      return true;
    }

    /** `readFactChunk`. */
    method ReadFactChunk(file: InputStream) returns (ok: bool)
      modifies this`fact, file
      ensures FactResult(ok, fact, file.State()) == FactChunkSpec(file.contents, old(fact), old(file.State()))
    {
      ghost var bytes, c := file.contents, file.State();
      RunEndZero(bytes, c);
      ReadStep(bytes, c, 0, 4);
      var sizeField := file.Read(4);
      if |sizeField| != 4 {
        return false;
      }
      ReadStep(bytes, c, 4, 4);
      var got := file.Read(4);
      fact := fact.(numSamplesPerChannel := Overlay32(fact.numSamplesPerChannel, got));
      if |got| != 4 {
        return false;
      }
      return true;
    }

    /** `readCueChunk`: the `for` loop appends each accepted point. */
    method ReadCueChunk(file: InputStream) returns (ok: bool)
      modifies this`cue, file
      ensures CueResult(ok, cue, file.State()) == CueChunkSpec(file.contents, old(cue), old(file.State()))
    {
      ghost var bytes, c, cue0 := file.contents, file.State(), cue;
      RunEndZero(bytes, c);
      ReadStep(bytes, c, 0, 4);
      var sizeField := file.Read(4);
      if |sizeField| != 4 {
        return false;
      }
      ReadStep(bytes, c, 4, 4);
      var got := file.Read(4);
      cue := cue.(numCuePoints := Overlay32(cue.numCuePoints, got));
      ghost var loop := CuePointsSpec(bytes, cue0.cuePoints, cue.numCuePoints, file.State());
      var i: nat := 0;
      while i < cue.numCuePoints
        invariant i <= cue.numCuePoints
        invariant cue == cue0.(numCuePoints := cue.numCuePoints, cuePoints := cue.cuePoints)
        invariant cue.numCuePoints == Overlay32(cue0.numCuePoints, Got(bytes, c, 4, 4))
        invariant CuePointsSpec(bytes, cue.cuePoints, cue.numCuePoints - i, file.State()) == loop
      {
        var accepted, cuePoint := ReadCuePoint(file);
        if !accepted {
          return false;
        }
        cue := cue.(cuePoints := cue.cuePoints + [cuePoint]);
        i := i + 1;
      }
      return true;
    }

    /** `readCuePoint`, filling a fresh, zeroed point. */
    method ReadCuePoint(file: InputStream) returns (ok: bool, cuePoint: CuePoint)
      modifies file
      ensures ok == CuePointSpec(file.contents, old(file.State())).Accepted?
      ensures file.State() == CuePointSpec(file.contents, old(file.State())).after
      ensures ok ==> cuePoint == CuePointSpec(file.contents, old(file.State())).point
    {
      ghost var bytes, c := file.contents, file.State();
      cuePoint := CuePoint(0, 0, Id(0, 0, 0, 0), 0, 0, 0);
      RunEndZero(bytes, c);
      ReadStep(bytes, c, 0, 4);
      var got := file.Read(4);
      cuePoint := cuePoint.(identifier := Overlay32(cuePoint.identifier, got));
      ReadStep(bytes, c, 4, 4);
      got := file.Read(4);
      cuePoint := cuePoint.(position := Overlay32(cuePoint.position, got));
      ReadStep(bytes, c, 8, 4);
      var fcc := file.Read(4);
      if |fcc| != 4 {
        // The tag buffer is only partly written, so the code compares
        // indeterminate bytes; the stream has failed by now, so the point
        // is rejected either here or at the final count check, with the
        // stream in the same state.
        return false, cuePoint;
      }
      cuePoint := cuePoint.(fccChunk := FromChars(fcc));
      if DifferentId(cuePoint.fccChunk, FromChars(DATA)) {
        return false, cuePoint;
      }
      ReadStep(bytes, c, 12, 4);
      got := file.Read(4);
      cuePoint := cuePoint.(chunkStart := Overlay32(cuePoint.chunkStart, got));
      ReadStep(bytes, c, 16, 4);
      got := file.Read(4);
      cuePoint := cuePoint.(blockStart := Overlay32(cuePoint.blockStart, got));
      ReadStep(bytes, c, 20, 4);
      got := file.Read(4);
      cuePoint := cuePoint.(sampleOffset := Overlay32(cuePoint.sampleOffset, got));
      if |got| != 4 {
        return false, cuePoint;
      }
      return true, cuePoint;
    }

    /** `skipChunk`. */
    method SkipChunk(file: InputStream) returns (ok: bool)
      modifies file
      ensures SkipResult(ok, file.State()) == SkipChunkSpec(file.contents, old(file.State()))
    {
      ghost var bytes, c := file.contents, file.State();
      RunEndZero(bytes, c);
      ReadStep(bytes, c, 0, 4);
      var sizeField := file.Read(4);
      if |sizeField| != 4 {
        return false;
      }
      var chunkSize := U32(sizeField);
      file.SeekG(chunkSize);
      if chunkSize % 2 == 1 {
        file.SeekG(1);
      }
      return true;
    }
  }
}
