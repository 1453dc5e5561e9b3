/** Model of `wav::Reader` (include/wav/Reader.hpp): the chunk walker that
    compares tags as strings, never skips a pad byte, skips `fact` chunks
    by their declared size, and records in its data chunk where the samples
    start and which format they are in.

    As for the other reader, each decoder is a function `XxxSpec` of the
    member it updates and the stream cursor, with lemmas saying what it
    means, and a method of the class `Reader` that performs the reads and
    seeks of the code one by one and is proved to end in the state the
    function describes. */
module WavReader {
  import opened ByteStream
  import opened Riff

  // Audio format codes (`AudioFormat`).
  const PCM: u16 := 1
  const IEEE_FLOAT: u16 := 3

  /** `FmtChunk`: the six fields of the mandatory part of a format chunk. */
  datatype FmtChunk = FmtChunk(
    audioFormat: u16,
    numChannels: u16,
    sampleRate: u32,
    byteRate: u32,
    blockAlign: u16,
    bitsPerSample: u16)

  /** `DataChunk`: the declared size, the stream offset of the first sample
      byte, the format the samples are in, and the raw sample bytes. */
  datatype DataChunk = DataChunk(size: u32, offset: int, audioFormat: u16, bitsPerSample: u16, samples: seq<byte>)

  /** `CuePoint`; `fccChunk` is a `std::string`, empty until a tag is read
      into it. */
  datatype CuePoint = CuePoint(
    identifier: u32,
    position: u32,
    fccChunk: seq<byte>,
    chunkStart: u32,
    blockStart: u32,
    sampleOffset: u32)

  /** `CueChunk`. Both counts are `long`s; `chunkSize` is never written, and
      of `numCuePoints` only the low four bytes are, so it holds an unsigned
      32-bit value. */
  datatype CueChunk = CueChunk(chunkSize: int, numCuePoints: u32, cuePoints: seq<CuePoint>)

  /** The members of a `Reader` object that parsing reads and writes. */
  datatype Fields = Fields(fmt: FmtChunk, data: DataChunk, cue: CueChunk, isOpen: bool)

  /** The members of a freshly constructed reader. */
  const INITIAL: Fields :=
    Fields(FmtChunk(PCM, 0, 0, 0, 0, 0), DataChunk(0, 0, PCM, 0, []), CueChunk(0, 0, []), false)

  // ---------------------------------------------------------------- fmt

  datatype FmtResult = FmtResult(ok: bool, fmt: FmtChunk, after: Cursor)

  /** `readFmtChunk`, with the stream at the size field. A short size field
      fails before anything is stored. Otherwise each of the six fields is
      overwritten by whatever its read delivers, and the chunk is accepted
      only when the last of them is complete. */
  function FmtChunkSpec(file: seq<byte>, fmt: FmtChunk, c: Cursor): (r: FmtResult)
    ensures r.after.pos >= c.pos
  {
    if c.failed || c.pos + 4 > |file| then FmtResult(false, fmt, RunEnd(file, c, 4))
    else
      var fmt' := FmtChunk(Overlay16(fmt.audioFormat, Got(file, c, 4, 2)),
                           Overlay16(fmt.numChannels, Got(file, c, 6, 2)),
                           Overlay32(fmt.sampleRate, Got(file, c, 8, 4)),
                           Overlay32(fmt.byteRate, Got(file, c, 12, 4)),
                           Overlay16(fmt.blockAlign, Got(file, c, 16, 2)),
                           Overlay16(fmt.bitsPerSample, Got(file, c, 18, 2)));
      if c.pos + 20 > |file| then FmtResult(false, fmt', RunEnd(file, c, 20))
      else FmtResult(true, fmt', Cursor(c.pos + 4 + Max(U32(Field(file, c, 0, 4)), 16), false))
  }

  /** `readFmtChunk` succeeds exactly when the size field and the 16
      mandatory bytes are all there, whatever size is declared. It then holds
      the six fields in file order and has skipped the declared size beyond
      16, if any. A short size field leaves the chunk as it was. */
  lemma {:induction false} FmtChunkDecodes(file: seq<byte>, fmt: FmtChunk, c: Cursor)
    ensures var r := FmtChunkSpec(file, fmt, c);
      && (r.ok <==> !c.failed && c.pos + 20 <= |file|)
      && (c.failed || c.pos + 4 > |file| ==> r.fmt == fmt)
      && (r.ok ==>
            && r.fmt == FmtChunk(U16(Field(file, c, 4, 6)), U16(Field(file, c, 6, 8)),
                                 U32(Field(file, c, 8, 12)), U32(Field(file, c, 12, 16)),
                                 U16(Field(file, c, 16, 18)), U16(Field(file, c, 18, 20)))
            && r.after == Cursor(c.pos + 4 + Max(U32(Field(file, c, 0, 4)), 16), false))
  {
  }

  // ---------------------------------------------------------------- data

  /** The formats whose samples the reader accepts. */
  predicate SupportedFormat(format: u16) {
    format == PCM || format == IEEE_FLOAT
  }

  datatype DataResult = DataResult(ok: bool, data: DataChunk, after: Cursor)

  /** `readDataChunk`, with the stream at the size field. The size is read
      straight into the chunk's member; once it is complete, the current
      format and sample width are copied into the chunk, then checked; then
      the offset is taken from `tellg` and, for a positive size, the sample
      buffer is resized and read into from its front. */
  function DataChunkSpec(file: seq<byte>, fmt: FmtChunk, data: DataChunk, c: Cursor): (r: DataResult)
    ensures r.after.pos >= c.pos
  {
    var data1 := data.(size := Overlay32(data.size, Got(file, c, 0, 4)));
    if c.failed || c.pos + 4 > |file| then DataResult(false, data1, RunEnd(file, c, 4))
    else
      var data2 := data1.(audioFormat := fmt.audioFormat, bitsPerSample := fmt.bitsPerSample);
      if !SupportedFormat(data2.audioFormat) then DataResult(false, data2, Cursor(c.pos + 4, false))
      else
        var data3 := data2.(offset := TellOf(Cursor(c.pos + 4, false)));
        if data3.size == 0 then DataResult(true, data3, Cursor(c.pos + 4, false))
        else
          var size: nat := data3.size;
          var got := Got(file, c, 4, size);
          var data4 := data3.(samples := got + Resized(data.samples, size)[|got|..]);
          if c.pos + 4 + size > |file| then DataResult(false, data4, RunEnd(file, c, 4 + size))
          else DataResult(true, data4, Cursor(c.pos + 4 + size, false))
  }

  /** `readDataChunk` succeeds exactly when the size field is there, the
      current format is PCM or IEEE float, and all declared payload bytes are
      there. The format and sample width are copied whenever the size field
      is complete, also for a format then rejected; the offset is the
      position just after the size field; the samples are exactly the
      payload bytes, in order, except that a zero-size chunk leaves the
      buffer as it was; and the stream ends right after the payload, with no
      pad byte skipped. */
  lemma {:induction false} DataChunkDecodes(file: seq<byte>, fmt: FmtChunk, data: DataChunk, c: Cursor)
    ensures var r := DataChunkSpec(file, fmt, data, c);
      && (r.ok <==> && !c.failed && c.pos + 4 <= |file| && SupportedFormat(fmt.audioFormat)
                    && c.pos + 4 + U32(Field(file, c, 0, 4)) <= |file|)
      && (!c.failed && c.pos + 4 <= |file| ==>
            && r.data.size == U32(Field(file, c, 0, 4))
            && r.data.audioFormat == fmt.audioFormat && r.data.bitsPerSample == fmt.bitsPerSample)
      && (c.failed || c.pos + 4 > |file| || !SupportedFormat(fmt.audioFormat) ==>
            r.data.samples == data.samples && r.data.offset == data.offset)
      && (r.ok ==> r.data.offset == c.pos + 4 && r.after == Cursor(c.pos + 4 + r.data.size, false))
      && (r.ok && r.data.size > 0 ==> r.data.samples == Field(file, c, 4, 4 + r.data.size))
      && (r.ok && r.data.size == 0 ==> r.data.samples == data.samples)
  {
    if !c.failed && c.pos + 4 <= |file| && SupportedFormat(fmt.audioFormat) {
      var size: nat := U32(Field(file, c, 0, 4));
      if size > 0 && c.pos + 4 + size <= |file| {
        var got := Got(file, c, 4, size);
        assert got + Resized(data.samples, size)[|got|..] == got;
      }
    }
  }

  // ---------------------------------------------------------------- cue

  /** The six little-endian fields of the 24-byte cue point record at p. */
  function DecodeCuePoint(file: seq<byte>, p: nat): (point: CuePoint)
    requires p + 24 <= |file|
    ensures point.fccChunk == file[p + 8..p + 12]
  {
    CuePoint(U32(file[p..p + 4]), U32(file[p + 4..p + 8]), file[p + 8..p + 12],
             U32(file[p + 12..p + 16]), U32(file[p + 16..p + 20]), U32(file[p + 20..p + 24]))
  }

  /** Reference decoding of a run of k cue point records from p: the records
      before the first one that is short or refers to another chunk,
      decoded. */
  function GoodPrefix(file: seq<byte>, p: nat, k: nat): (ps: seq<CuePoint>)
    decreases k
    ensures |ps| <= k
  {
    if k == 0 || !CueRecordOk(file, p) then [] else [DecodeCuePoint(file, p)] + GoodPrefix(file, p + 24, k - 1)
  }

  /** Each point of `GoodPrefix` is the matching record, which is good,
      decoded. */
  lemma {:induction false} GoodPrefixPoints(file: seq<byte>, p: nat, k: nat)
    ensures forall j | 0 <= j < |GoodPrefix(file, p, k)| ::
              CueRecordOk(file, RecordAt(p, j)) && GoodPrefix(file, p, k)[j] == DecodeCuePoint(file, RecordAt(p, j))
    decreases k
  {
    if k > 0 && CueRecordOk(file, p) {
      var tail := GoodPrefix(file, p + 24, k - 1);
      GoodPrefixPoints(file, p + 24, k - 1);
      assert GoodPrefix(file, p, k) == [DecodeCuePoint(file, p)] + tail;
      assert RecordAt(p, 0) == p;
      forall j | 0 < j < |GoodPrefix(file, p, k)|
        ensures CueRecordOk(file, RecordAt(p, j)) && GoodPrefix(file, p, k)[j] == DecodeCuePoint(file, RecordAt(p, j))
      {
        assert GoodPrefix(file, p, k)[j] == tail[j - 1];
        assert RecordAt(p + 24, j - 1) == RecordAt(p, j);
      }
    }
  }

  /** `GoodPrefix` is complete exactly when all k records are good, and when
      it is not, the record after its last point is bad. */
  lemma {:induction false} GoodPrefixComplete(file: seq<byte>, p: nat, k: nat)
    ensures |GoodPrefix(file, p, k)| == k <==> RecordsOk(file, p, k)
    ensures |GoodPrefix(file, p, k)| < k ==> !CueRecordOk(file, RecordAt(p, |GoodPrefix(file, p, k)|))
    decreases k
  {
    assert RecordAt(p, 0) == p;
    if k > 0 && CueRecordOk(file, p) {
      var n := |GoodPrefix(file, p + 24, k - 1)|;
      GoodPrefixComplete(file, p + 24, k - 1);
      assert |GoodPrefix(file, p, k)| == 1 + n;
      assert RecordAt(p + 24, n) == RecordAt(p, n + 1);
    }
  }

  /** The outcome of `readCuePoint`: the point it filled in, or a rejection,
      with where the stream is left. */
  datatype PointResult = Rejected(after: Cursor) | Accepted(point: CuePoint, after: Cursor)

  /** `readCuePoint`: six 4-byte reads, with the source chunk tag checked
      after the third, so a record naming another chunk is rejected after 12
      bytes and a record cut short after its end. */
  function CuePointSpec(file: seq<byte>, c: Cursor): (r: PointResult)
    ensures r.after.pos >= c.pos
  {
    if c.failed || c.pos + 12 > |file| || file[c.pos + 8..c.pos + 12] != DATA then Rejected(RunEnd(file, c, 12))
    else if c.pos + 24 > |file| then Rejected(RunEnd(file, c, 24))
    else Accepted(DecodeCuePoint(file, c.pos), Cursor(c.pos + 24, false))
  }

  /** `readCuePoint` accepts exactly a whole record that refers to "data",
      yielding that record decoded; a record naming another chunk is
      rejected with the stream just past its tag. */
  lemma {:induction false} CuePointDecodes(file: seq<byte>, c: Cursor)
    ensures var r := CuePointSpec(file, c);
      && (r.Accepted? <==> !c.failed && CueRecordOk(file, c.pos))
      && (r.Accepted? ==> r.point == DecodeCuePoint(file, c.pos) && r.after == Cursor(c.pos + 24, false))
      && (!c.failed && c.pos + 12 <= |file| && file[c.pos + 8..c.pos + 12] != DATA ==>
            r == Rejected(Cursor(c.pos + 12, false)))
  {
  }

  datatype PointsResult = PointsResult(ok: bool, points: seq<CuePoint>, after: Cursor)

  /** The loop of `readCueChunk` with k points still to read, appending each
      point read to `points` and stopping at the first rejection. */
  function CuePointsSpec(file: seq<byte>, points: seq<CuePoint>, k: nat, c: Cursor): (r: PointsResult)
    decreases k
    ensures r.after.pos >= c.pos
  {
    if k == 0 then PointsResult(true, points, c)
    else
      match CuePointSpec(file, c)
      case Rejected(after) => PointsResult(false, points, after)
      case Accepted(point, after) => CuePointsSpec(file, points + [point], k - 1, after)
  }

  /** What the loop appends is the reference decoding of the next k records,
      and it succeeds exactly when all k are good, having then consumed
      24 bytes per record. */
  lemma {:induction false} CuePointsDecode(file: seq<byte>, points: seq<CuePoint>, k: nat, c: Cursor)
    ensures var r := CuePointsSpec(file, points, k, c);
      && (!c.failed ==> r.points == points + GoodPrefix(file, c.pos, k))
      && (c.failed ==> r.points == points)
      && (r.ok <==> k == 0 || (!c.failed && RecordsOk(file, c.pos, k)))
      && (r.ok ==> r.after == if k == 0 then c else Cursor(c.pos + 24 * k, false))
    decreases k
  {
    if k == 0 {
      assert points + [] == points;
    } else {
      CuePointDecodes(file, c);
      match CuePointSpec(file, c)
      case Accepted(point, after) =>
        CuePointsDecode(file, points + [point], k - 1, after);
        AppendAssoc(points, [point], GoodPrefix(file, c.pos + 24, k - 1));
      case Rejected(_) =>
        assert points + [] == points;
    }
  }

  datatype CueResult = CueResult(ok: bool, cue: CueChunk, after: Cursor)

  /** `readCueChunk`, with the stream at the size field: the size read and
      ignored, the unchecked read of the point count into the chunk's
      member, and the loop over that many points. */
  function CueChunkSpec(file: seq<byte>, cue: CueChunk, c: Cursor): (r: CueResult)
    ensures r.cue.chunkSize == cue.chunkSize
    ensures r.after.pos >= c.pos
  {
    if c.failed || c.pos + 4 > |file| then CueResult(false, cue, RunEnd(file, c, 4))
    else
      var n := Overlay32(cue.numCuePoints, Got(file, c, 4, 4));
      var l := CuePointsSpec(file, cue.cuePoints, n, RunEnd(file, c, 8));
      CueResult(l.ok, cue.(numCuePoints := n, cuePoints := l.points), l.after)
  }

  /** `readCueChunk` on a short chunk. A short size field fails with nothing
      stored. A short count field leaves the count with its old bytes beyond
      those read, appends nothing, and succeeds only if that count is
      zero. */
  lemma {:induction false} CueChunkShort(file: seq<byte>, cue: CueChunk, c: Cursor)
    ensures var r := CueChunkSpec(file, cue, c);
      && (c.failed || c.pos + 4 > |file| ==> !r.ok && r.cue == cue)
      && (!c.failed && c.pos + 4 <= |file| < c.pos + 8 ==>
            && r.cue == cue.(numCuePoints := Overlay32(cue.numCuePoints, file[c.pos + 4..]))
            && (r.ok <==> r.cue.numCuePoints == 0))
  {
    if !c.failed && c.pos + 4 <= |file| < c.pos + 8 {
      var n := Overlay32(cue.numCuePoints, Got(file, c, 4, 4));
      assert Got(file, c, 4, 4) == file[c.pos + 4..];
      CuePointsDecode(file, cue.cuePoints, n, RunEnd(file, c, 8));
    }
  }

  /** `readCueChunk` with a complete count field: the count is stored, the
      reference decoding of that many records is appended, and the decoder
      succeeds exactly when all of them are good, ending after the last. */
  lemma {:induction false} CueChunkDecodes(file: seq<byte>, cue: CueChunk, c: Cursor)
    requires !c.failed && c.pos + 8 <= |file|
    ensures var r := CueChunkSpec(file, cue, c);
      && r.cue.numCuePoints == U32(Field(file, c, 4, 8))
      && r.cue.cuePoints == cue.cuePoints + GoodPrefix(file, c.pos + 8, r.cue.numCuePoints)
      && (r.ok <==> RecordsOk(file, c.pos + 8, r.cue.numCuePoints))
      && (r.ok ==> r.after == Cursor(c.pos + 8 + 24 * r.cue.numCuePoints, false))
  {
    var n := Overlay32(cue.numCuePoints, Got(file, c, 4, 4));
    CuePointsDecode(file, cue.cuePoints, n, RunEnd(file, c, 8));
  }

  // ---------------------------------------------------------------- skip

  datatype SkipResult = SkipResult(ok: bool, after: Cursor)

  /** `skipChunk`, and `readFactChunk`, whose body is the same: the size read,
      then the seek over the payload, with no pad byte. Seeking past the end
      of the file leaves the stream good. */
  function SkipChunkSpec(file: seq<byte>, c: Cursor): (r: SkipResult)
    ensures r.after.pos >= c.pos
  {
    if c.failed || c.pos + 4 > |file| then SkipResult(false, RunEnd(file, c, 4))
    else SkipResult(true, Cursor(c.pos + 4 + U32(Field(file, c, 0, 4)), false))
  }

  /** `skipChunk` fails only when the size field is short; otherwise the
      stream stays good, also past the end of the file, and has moved past
      the size field and exactly the declared payload, odd or even. */
  lemma {:induction false} SkipChunkDecodes(file: seq<byte>, c: Cursor)
    ensures var r := SkipChunkSpec(file, c);
      && (r.ok <==> !c.failed && c.pos + 4 <= |file|)
      && (r.ok ==> r.after == Cursor(c.pos + 4 + U32(Field(file, c, 0, 4)), false))
  {
  }

  // ---------------------------------------------------------------- open

  /** The tags the loop names but only skips. */
  predicate Skippable(tag: Tag): (named: bool)
    ensures named <==> tag in SKIPPABLE
  {
    || tag == JUNK || tag == LIST || tag == INFO || tag == SMPL
    || tag == INST || tag == BEXT || tag == IXML
  }

  datatype ChunkResult = ChunkResult(ok: bool, fields: Fields, after: Cursor)

  /** One turn of the dispatch in `open`, with the stream just after the tag:
      the decoder the tag selects, applied to the member it updates. */
  function ChunkSpec(file: seq<byte>, f: Fields, tag: Tag, c: Cursor): (r: ChunkResult)
    ensures r.after.pos >= c.pos
    ensures r.fields.isOpen == f.isOpen
  {
    if tag == FMT then
      var r := FmtChunkSpec(file, f.fmt, c);
      ChunkResult(r.ok, f.(fmt := r.fmt), r.after)
    else if tag == DATA then
      var r := DataChunkSpec(file, f.fmt, f.data, c);
      ChunkResult(r.ok, f.(data := r.data), r.after)
    else if tag == FACT then
      var r := SkipChunkSpec(file, c);
      ChunkResult(r.ok, f, r.after)
    else if tag == CUE then
      var r := CueChunkSpec(file, f.cue, c);
      ChunkResult(r.ok, f.(cue := r.cue), r.after)
    else if Skippable(tag) then
      var r := SkipChunkSpec(file, c);
      ChunkResult(r.ok, f, r.after)
    else
      var r := SkipChunkSpec(file, c);
      ChunkResult(r.ok, f, r.after)
  }

  /** The tags whose decoder stores something. */
  predicate Decoded(tag: Tag): (decoded: bool)
    ensures decoded ==> !Skippable(tag) && tag != FACT
  {
    tag == FMT || tag == DATA || tag == CUE
  }

  /** A tag whose decoder stores nothing, `fact` among them, selects the
      generic skipper. */
  lemma {:induction false} NotDecodedSkips(file: seq<byte>, f: Fields, tag: Tag, c: Cursor)
    requires !Decoded(tag)
    ensures ChunkSpec(file, f, tag, c) == ChunkResult(SkipChunkSpec(file, c).ok, f, SkipChunkSpec(file, c).after)
  {
  }

  /** A `fact` chunk, and each of the tags the loop names but only skips, is
      treated exactly like a tag the loop does not know. */
  lemma {:induction false} SkippableLikeUnknown(file: seq<byte>, f: Fields, tag: Tag, other: Tag, c: Cursor)
    requires (Skippable(tag) || tag == FACT) && !Skippable(other) && !Decoded(other) && other != FACT
    ensures ChunkSpec(file, f, tag, c) == ChunkSpec(file, f, other, c)
  {
    assert tag[0] in {0x66, 0x4a, 0x4c, 0x49, 0x73, 0x69, 0x62};
    assert !Decoded(tag);
  }

  /** The turn of the loop at a chunk whose decoder stores nothing, whose
      size field is complete, goes on with the members as they were, past the
      size field and the payload. */
  lemma {:induction false} UnknownChunkSkipped(file: seq<byte>, f: Fields, tag: Tag, d: Cursor)
    requires !d.failed && d.pos + 4 <= |file| && !Decoded(tag)
    ensures ChunkSpec(file, f, tag, d) == ChunkResult(true, f, Cursor(d.pos + 4 + U32(file[d.pos..d.pos + 4]), false))
    ensures tag != FMT
  {
    NotDecodedSkips(file, f, tag, d);
    SkipChunkDecodes(file, d);
    assert Field(file, d, 0, 4) == file[d.pos..d.pos + 4];
  }

  datatype Walked = Walked(completed: bool, foundFmt: bool, fields: Fields)

  /** The chunk loop of `open` from the cursor c: while the stream is good a
      4-byte tag is read, a short tag read ends the loop normally, and a
      decoder failure ends it with `completed` false. `foundFmt` records
      whether an `fmt ` chunk was decoded. The loop terminates because every
      turn that goes on has consumed a tag and moved forward, and a stream
      sought past the end fails its next tag read. */
  function Walk(file: seq<byte>, f: Fields, c: Cursor, found: bool): (w: Walked)
    ensures w.fields.isOpen == f.isOpen
    decreases Remaining(file, c)
  {
    if c.failed || c.pos + 4 > |file| then Walked(true, found, f)
    else
      var tag := file[c.pos..c.pos + 4];
      var r := ChunkSpec(file, f, tag, Cursor(c.pos + 4, false));
      if !r.ok then Walked(false, found, r.fields)
      else Walk(file, r.fields, r.after, found || tag == FMT)
  }

  /** One turn of the loop, for a stream that has a whole tag left. */
  lemma {:induction false} WalkStep(file: seq<byte>, f: Fields, c: Cursor, found: bool)
    requires !c.failed && c.pos + 4 <= |file|
    ensures var tag := file[c.pos..c.pos + 4];
            var r := ChunkSpec(file, f, tag, Cursor(c.pos + 4, false));
            Walk(file, f, c, found) == if !r.ok then Walked(false, found, r.fields)
                                       else Walk(file, r.fields, r.after, found || tag == FMT)
  {
  }

  datatype Opened = Opened(ok: bool, fields: Fields)

  /** `open` on a file with the given bytes: the 12-byte envelope, the chunk
      loop from byte 12, and the check that a format chunk was decoded,
      which alone sets `isOpen`. */
  function OpenSpec(file: seq<byte>, f: Fields): (r: Opened)
    ensures !HeaderOk(file) ==> r == Opened(false, f)
    ensures r.ok ==> r.fields.isOpen
    ensures !r.ok ==> r.fields.isOpen == f.isOpen
  {
    if !HeaderOk(file) then Opened(false, f)
    else
      var w := Walk(file, f, Cursor(12, false), false);
      var ok := w.completed && w.foundFmt;
      Opened(ok, w.fields.(isOpen := f.isOpen || ok))
  }

  // ------------------------------------------------------- walk properties

  /** A short tag read, or a stream that is no longer good, ends the loop
      normally with nothing changed. */
  lemma {:induction false} WalkEndsCleanly(file: seq<byte>, f: Fields, c: Cursor, found: bool)
    requires c.failed || c.pos + 4 > |file|
    ensures Walk(file, f, c, found) == Walked(true, found, f)
  {
  }

  /** A decoder failure ends the loop with `completed` false, which makes
      `open` return false. */
  lemma {:induction false} DecoderFailureAborts(file: seq<byte>, f: Fields, c: Cursor, found: bool)
    requires !c.failed && c.pos + 4 <= |file|
    requires !ChunkSpec(file, f, file[c.pos..c.pos + 4], Cursor(c.pos + 4, false)).ok
    ensures !Walk(file, f, c, found).completed
  {
    WalkStep(file, f, c, found);
  }

  /** A complete `fmt ` chunk header with its 16 mandatory bytes at q. */
  predicate FmtChunkAt(file: seq<byte>, q: nat) {
    q + 24 <= |file| && file[q..q + 4] == FMT
  }

  /** The loop reports a decoded format chunk only if one lies ahead, and a
      loop that completes without one leaves the format members alone. */
  lemma {:induction false} WalkFmt(file: seq<byte>, f: Fields, c: Cursor, found: bool)
    ensures var w := Walk(file, f, c, found);
      && (w.foundFmt && !found ==> exists q | c.pos <= q :: FmtChunkAt(file, q))
      && (w.completed && !w.foundFmt ==> !found && w.fields.fmt == f.fmt)
    decreases Remaining(file, c)
  {
    if !c.failed && c.pos + 4 <= |file| {
      WalkStep(file, f, c, found);
      var tag := file[c.pos..c.pos + 4];
      var d := Cursor(c.pos + 4, false);
      var r := ChunkSpec(file, f, tag, d);
      if r.ok {
        WalkFmt(file, r.fields, r.after, found || tag == FMT);
        if tag == FMT {
          FmtChunkDecodes(file, f.fmt, d);
          assert FmtChunkAt(file, c.pos);
        }
      }
    }
  }

  /** Cue points are only ever appended: whatever the file, the points the
      members held before the walk are still there, first, after it. */
  lemma {:induction false} WalkKeepsCuePoints(file: seq<byte>, f: Fields, c: Cursor, found: bool)
    ensures f.cue.cuePoints <= Walk(file, f, c, found).fields.cue.cuePoints
    decreases Remaining(file, c)
  {
    if !c.failed && c.pos + 4 <= |file| {
      WalkStep(file, f, c, found);
      var tag := file[c.pos..c.pos + 4];
      var d := Cursor(c.pos + 4, false);
      var r := ChunkSpec(file, f, tag, d);
      ChunkKeepsCuePoints(file, f, tag, d);
      if r.ok {
        WalkKeepsCuePoints(file, r.fields, r.after, found || tag == FMT);
      }
    }
  }

  /** One decoder, whichever the tag selects, keeps the cue points held
      before. */
  lemma {:induction false} ChunkKeepsCuePoints(file: seq<byte>, f: Fields, tag: Tag, d: Cursor)
    ensures f.cue.cuePoints <= ChunkSpec(file, f, tag, d).fields.cue.cuePoints
  {
    CueKeepsPoints(file, f.cue, d);
  }

  /** `readCueChunk` only appends to the points it already holds. */
  lemma {:induction false} CueKeepsPoints(file: seq<byte>, cue: CueChunk, c: Cursor)
    ensures cue.cuePoints <= CueChunkSpec(file, cue, c).cue.cuePoints
  {
    if !c.failed && c.pos + 4 <= |file| {
      var n := Overlay32(cue.numCuePoints, Got(file, c, 4, 4));
      CuePointsDecode(file, cue.cuePoints, n, RunEnd(file, c, 8));
    }
  }

  /** `open` succeeds only on a file that has the envelope and a complete
      `fmt ` chunk after it; on success `isOpen` is set, otherwise it keeps
      its old value and the cue points held before stay in place. */
  lemma {:induction false} OpenNeedsFmt(file: seq<byte>, f: Fields)
    ensures var r := OpenSpec(file, f);
      && (r.ok ==> HeaderOk(file) && r.fields.isOpen && exists q | 12 <= q :: FmtChunkAt(file, q))
      && (!r.ok ==> r.fields.isOpen == f.isOpen)
      && f.cue.cuePoints <= r.fields.cue.cuePoints
  {
    if HeaderOk(file) {
      WalkFmt(file, f, Cursor(12, false), false);
      WalkKeepsCuePoints(file, f, Cursor(12, false), false);
    }
  }

  // ------------------------------------------------------- complete files

  /** The twelve characters "INVALID DATA". */
  const INVALID_DATA: seq<byte> := [0x49, 0x4e, 0x56, 0x41, 0x4c, 0x49, 0x44, 0x20, 0x44, 0x41, 0x54, 0x41]

  /** Twelve bytes that do not start with "RIFF" are rejected with nothing
      changed. */
  lemma {:induction false} InvalidDataRejected(f: Fields)
    ensures OpenSpec(INVALID_DATA, f) == Opened(false, f)
  {
    assert INVALID_DATA[..4][0] != RIFF[0];
  }

  /** The smallest file the reader opens: the envelope with the given RIFF
      size, a 16-byte `fmt ` chunk holding the given fields, and an empty
      `data` chunk; 44 bytes. */
  function MinimalFile(riffSize: u32, fmt: FmtChunk): (file: seq<byte>)
    ensures |file| == 44
  {
    RIFF + Encode(riffSize, 4) + WAVE
    + FMT + Encode(16, 4)
    + Encode(fmt.audioFormat, 2) + Encode(fmt.numChannels, 2) + Encode(fmt.sampleRate, 4)
    + Encode(fmt.byteRate, 4) + Encode(fmt.blockAlign, 2) + Encode(fmt.bitsPerSample, 2)
    + DATA + Encode(0, 4)
  }

  /** The pieces of `MinimalFile` at their offsets. */
  lemma {:induction false} MinimalFileLayout(riffSize: u32, fmt: FmtChunk)
    ensures var file := MinimalFile(riffSize, fmt);
      && file[..4] == RIFF && file[8..12] == WAVE && file[12..16] == FMT && file[36..40] == DATA
      && U32(file[16..20]) == 16 && U32(file[40..44]) == 0
      && U16(file[20..22]) == fmt.audioFormat && U16(file[22..24]) == fmt.numChannels
      && U32(file[24..28]) == fmt.sampleRate && U32(file[28..32]) == fmt.byteRate
      && U16(file[32..34]) == fmt.blockAlign && U16(file[34..36]) == fmt.bitsPerSample
  {
    var file := MinimalFile(riffSize, fmt);
    Pow256Widths();
    var e1, e2, e3 := Encode(riffSize, 4), Encode(16, 4), Encode(fmt.audioFormat, 2);
    var e4, e5, e6 := Encode(fmt.numChannels, 2), Encode(fmt.sampleRate, 4), Encode(fmt.byteRate, 4);
    var e7, e8, e9 := Encode(fmt.blockAlign, 2), Encode(fmt.bitsPerSample, 2), Encode(0, 4);
    var p1 := RIFF + e1 + WAVE + FMT + e2 + e3 + e4 + e5 + e6 + e7 + e8;
    assert file[0..0 + |file|] == file;
    AtSplit(file, 0, p1 + DATA, e9);
    AtSplit(file, 0, p1, DATA);
    var p2 := RIFF + e1 + WAVE + FMT + e2 + e3 + e4 + e5 + e6;
    AtSplit(file, 0, p2 + e7, e8);
    AtSplit(file, 0, p2, e7);
    var p3 := RIFF + e1 + WAVE + FMT + e2 + e3 + e4;
    AtSplit(file, 0, p3 + e5, e6);
    AtSplit(file, 0, p3, e5);
    var p4 := RIFF + e1 + WAVE + FMT + e2;
    AtSplit(file, 0, p4 + e3, e4);
    AtSplit(file, 0, p4, e3);
    var p5 := RIFF + e1 + WAVE;
    AtSplit(file, 0, p5 + FMT, e2);
    AtSplit(file, 0, p5, FMT);
    AtSplit(file, 0, RIFF + e1, WAVE);
    AtSplit(file, 0, RIFF, e1);
  }

  /** The first turn of the loop over a minimal file decodes its format
      chunk and ends at its data chunk. */
  lemma {:induction false} MinimalFmtTurn(riffSize: u32, fmt: FmtChunk, f: Fields)
    ensures ChunkSpec(MinimalFile(riffSize, fmt), f, FMT, Cursor(16, false)) == ChunkResult(true, f.(fmt := fmt), Cursor(36, false))
  {
    var file, d := MinimalFile(riffSize, fmt), Cursor(16, false);
    MinimalFileLayout(riffSize, fmt);
    FmtChunkDecodes(file, f.fmt, d);
    assert Field(file, d, 0, 4) == file[16..20];
    assert Field(file, d, 4, 6) == file[20..22];
    assert Field(file, d, 6, 8) == file[22..24];
    assert Field(file, d, 8, 12) == file[24..28];
    assert Field(file, d, 12, 16) == file[28..32];
    assert Field(file, d, 16, 18) == file[32..34];
    assert Field(file, d, 18, 20) == file[34..36];
  }

  /** The second turn decodes the empty data chunk, which succeeds exactly
      for a PCM or IEEE float format and then ends at the end of the file. */
  lemma {:induction false} MinimalDataTurn(riffSize: u32, fmt: FmtChunk, f: Fields)
    requires f.fmt == fmt
    ensures var r := ChunkSpec(MinimalFile(riffSize, fmt), f, DATA, Cursor(40, false));
      && (r.ok <==> SupportedFormat(fmt.audioFormat))
      && r.fields.fmt == fmt
      && (r.ok ==> r == ChunkResult(true, f.(data := f.data.(size := 0, offset := 44, audioFormat := fmt.audioFormat,
                                                             bitsPerSample := fmt.bitsPerSample)), Cursor(44, false)))
  {
    var file, d := MinimalFile(riffSize, fmt), Cursor(40, false);
    MinimalFileLayout(riffSize, fmt);
    DataChunkDecodes(file, fmt, f.data, d);
    assert Field(file, d, 0, 4) == file[40..44];
  }

  /** The loop over a minimal file decodes its two chunks and completes
      exactly when the data chunk's format check passes. */
  lemma {:induction false} MinimalFileWalk(riffSize: u32, fmt: FmtChunk, f: Fields)
    ensures var w := Walk(MinimalFile(riffSize, fmt), f, Cursor(12, false), false);
      && (w.completed && w.foundFmt <==> SupportedFormat(fmt.audioFormat))
      && w.fields.fmt == fmt
      && (w.completed ==> w.fields.data == f.data.(size := 0, offset := 44, audioFormat := fmt.audioFormat,
                                                   bitsPerSample := fmt.bitsPerSample))
  {
    var file, f1 := MinimalFile(riffSize, fmt), f.(fmt := fmt);
    MinimalFileLayout(riffSize, fmt);
    WalkStep(file, f, Cursor(12, false), false);
    MinimalFmtTurn(riffSize, fmt, f);
    WalkStep(file, f1, Cursor(36, false), true);
    MinimalDataTurn(riffSize, fmt, f1);
    var r := ChunkSpec(file, f1, DATA, Cursor(40, false));
    if r.ok {
      WalkEndsCleanly(file, r.fields, Cursor(44, false), true);
    }
  }

  /** A minimal file opens exactly when its format is PCM or IEEE float,
      whatever the reader held before; it then reports the fields of its
      format chunk, and the data chunk records an empty payload at offset 44
      in that format. */
  lemma {:induction false} MinimalFileOpens(riffSize: u32, fmt: FmtChunk, f: Fields)
    ensures var r := OpenSpec(MinimalFile(riffSize, fmt), f);
      && (r.ok <==> SupportedFormat(fmt.audioFormat))
      && r.fields.fmt == fmt
      && (r.ok ==> r.fields.isOpen && r.fields.data == f.data.(size := 0, offset := 44, audioFormat := fmt.audioFormat,
                                                               bitsPerSample := fmt.bitsPerSample))
  {
    MinimalFileLayout(riffSize, fmt);
    assert HeaderOk(MinimalFile(riffSize, fmt));
    MinimalFileWalk(riffSize, fmt, f);
  }

  /** The class itself: the chunk members, `isOpen_`, and the decoders. */
  class Reader {
    var fmt: FmtChunk
    var data: DataChunk
    var cue: CueChunk
    var isOpen: bool

    function Members(): Fields
      reads this
    {
      Fields(fmt, data, cue, isOpen)
    }

    constructor ()
      ensures Members() == INITIAL
    {
      fmt := INITIAL.fmt;
      data := INITIAL.data;
      cue := INITIAL.cue;
      isOpen := false;
    }

    function IsOpen(): bool
      reads this
    {
      isOpen
    }

    function GetNumChannels(): u16
      reads this
    {
      fmt.numChannels
    }

    function GetSampleRate(): u32
      reads this
    {
      fmt.sampleRate
    }

    function GetBitsPerSample(): u16
      reads this
    {
      fmt.bitsPerSample
    }

    function GetAudioFormat(): u16
      reads this
    {
      fmt.audioFormat
    }

    function GetFmtChunk(): FmtChunk
      reads this
    {
      fmt
    }

    function GetDataChunk(): DataChunk
      reads this
    {
      data
    }

    function GetCueChunk(): CueChunk
      reads this
    {
      cue
    }

    /** `open` over a file with the given contents. */
    method Open(contents: seq<byte>) returns (ok: bool)
      modifies this
      ensures Opened(ok, Members()) == OpenSpec(contents, old(Members()))
    {
      var file := new InputStream(contents);
      ReadStep(contents, START, 0, 12);
      var riffHeader := file.Read(12);
      if |riffHeader| != 12 {
        return false;
      }
      if riffHeader[..4] != RIFF {
        return false;
      }
      if riffHeader[8..12] != WAVE {
        return false;
      }
      var completed, foundFmtChunk := WalkChunks(file);
      if !completed {
        return false;
      }
      if !foundFmtChunk {
        return false;
      }
      isOpen := true;
      return true;
    }

    /** The `while (file.good())` loop of `open`; `completed` is false when
        a decoder failed, which makes `open` return false at once. */
    method WalkChunks(file: InputStream) returns (completed: bool, foundFmtChunk: bool)
      modifies this`fmt, this`data, this`cue, file
      ensures Walked(completed, foundFmtChunk, Members()) == Walk(file.contents, old(Members()), old(file.State()), false)
    {
      ghost var contents := file.contents;
      ghost var walked := Walk(contents, Members(), file.State(), false);
      foundFmtChunk := false;
      while !file.failed
        invariant file.contents == contents
        invariant Walk(contents, Members(), file.State(), foundFmtChunk) == walked
        decreases Remaining(contents, file.State())
      {
        ghost var c := file.State();
        RunEndZero(contents, c);
        ReadStep(contents, c, 0, 4);
        var chunkName := file.Read(4);
        if |chunkName| != 4 {
          break;
        }
        WalkStep(contents, Members(), c, foundFmtChunk);
        var decoded := DispatchChunk(file, chunkName);
        if !decoded {
          return false, foundFmtChunk;
        }
        if chunkName == FMT {
          foundFmtChunk := true;
        }
      }
      return true, foundFmtChunk;
    }

    /** The `if`/`else if` chain of the loop in `open`, with the stream just
        after the tag: each decoder's failure is the loop's. */
    method DispatchChunk(file: InputStream, chunkName: Tag) returns (ok: bool)
      modifies this`fmt, this`data, this`cue, file
      ensures ChunkResult(ok, Members(), file.State()) == ChunkSpec(file.contents, old(Members()), chunkName, old(file.State()))
    {
      if chunkName == FMT {
        ok := ReadFmtChunk(file);
      } else if chunkName == DATA {
        ok := ReadDataChunk(file);
      } else if chunkName == FACT {
        ok := ReadFactChunk(file);
      } else if chunkName == CUE {
        ok := ReadCueChunk(file);
      } else if Skippable(chunkName) {
        // Known-but-not-parsed chunks.
        ok := SkipChunk(file);
      } else {
        // Unknown or vendor-specific chunks.
        ok := SkipChunk(file);
      }
    }

    /** `readFmtChunk`. */
    method ReadFmtChunk(file: InputStream) returns (ok: bool)
      modifies this`fmt, file
      ensures FmtResult(ok, fmt, file.State()) == FmtChunkSpec(file.contents, old(fmt), old(file.State()))
    {
      ghost var bytes, c := file.contents, file.State();
      RunEndZero(bytes, c);
      ReadStep(bytes, c, 0, 4);
      var sizeField := file.Read(4);
      if |sizeField| != 4 {
        return false;
      }
      var chunkSize := U32(sizeField);
      assert chunkSize == U32(Field(bytes, c, 0, 4));
      ReadStep(bytes, c, 4, 2);
      var got := file.Read(2);
      fmt := fmt.(audioFormat := Overlay16(fmt.audioFormat, got));
      ReadStep(bytes, c, 6, 2);
      got := file.Read(2);
      fmt := fmt.(numChannels := Overlay16(fmt.numChannels, got));
      ReadStep(bytes, c, 8, 4);
      got := file.Read(4);
      fmt := fmt.(sampleRate := Overlay32(fmt.sampleRate, got));
      ReadStep(bytes, c, 12, 4);
      got := file.Read(4);
      fmt := fmt.(byteRate := Overlay32(fmt.byteRate, got));
      assert fmt == old(fmt).(audioFormat := fmt.audioFormat, numChannels := fmt.numChannels,
                              sampleRate := fmt.sampleRate, byteRate := fmt.byteRate);
      ReadStep(bytes, c, 16, 2);
      got := file.Read(2);
      fmt := fmt.(blockAlign := Overlay16(fmt.blockAlign, got));
      ReadStep(bytes, c, 18, 2);
      got := file.Read(2);
      fmt := fmt.(bitsPerSample := Overlay16(fmt.bitsPerSample, got));
      if |got| != 2 {
        return false;
      }
      assert file.State() == Cursor(c.pos + 20, false);
      assert fmt == FmtChunkSpec(bytes, old(fmt), c).fmt;
      if chunkSize > 16 {
        file.SeekG(chunkSize - 16);
      }
      assert file.State() == Cursor(c.pos + 4 + Max(chunkSize, 16), false);
      return true;
    }

    /** `readDataChunk`. */
    method ReadDataChunk(file: InputStream) returns (ok: bool)
      modifies this`data, file
      ensures DataResult(ok, data, file.State()) == DataChunkSpec(file.contents, fmt, old(data), old(file.State()))
    {
      ghost var bytes, c, data0 := file.contents, file.State(), data;
      RunEndZero(bytes, c);
      ReadStep(bytes, c, 0, 4);
      var sizeField := file.Read(4);
      data := data.(size := Overlay32(data.size, sizeField));
      if |sizeField| != 4 {
        return false;
      }
      data := data.(audioFormat := fmt.audioFormat);
      data := data.(bitsPerSample := fmt.bitsPerSample);
      if data.audioFormat != PCM && data.audioFormat != IEEE_FLOAT {
        return false;
      }
      var offset := file.TellG();
      data := data.(offset := offset);
      if data.size > 0 {
        var size: nat := data.size;
        data := data.(samples := Resized(data.samples, size));
        ReadStep(bytes, c, 4, size);
        var samples := file.Read(size);
        data := data.(samples := samples + data.samples[|samples|..]);
        if |samples| != size {
          return false;
        }
      }
      return true;
    }

    /** `readFactChunk`: the size read, then a seek over that many bytes. */
    method ReadFactChunk(file: InputStream) returns (ok: bool)
      modifies file
      ensures SkipResult(ok, file.State()) == SkipChunkSpec(file.contents, old(file.State()))
    {
      ghost var bytes, c := file.contents, file.State();
      RunEndZero(bytes, c);
      ReadStep(bytes, c, 0, 4);
      var sizeField := file.Read(4);
      if |sizeField| != 4 {
        return false;
      }
      var chunkSize := U32(sizeField);
      file.SeekG(chunkSize);
      return true;
    }

    /** `readCueChunk`: the `for` loop appends each accepted point. */
    method ReadCueChunk(file: InputStream) returns (ok: bool)
      modifies this`cue, file
      ensures CueResult(ok, cue, file.State()) == CueChunkSpec(file.contents, old(cue), old(file.State()))
    {
      ghost var bytes, c, cue0 := file.contents, file.State(), cue;
      RunEndZero(bytes, c);
      ReadStep(bytes, c, 0, 4);
      var sizeField := file.Read(4);
      if |sizeField| != 4 {
        return false;
      }
      ReadStep(bytes, c, 4, 4);
      var got := file.Read(4);
      cue := cue.(numCuePoints := Overlay32(cue.numCuePoints, got));
      ghost var loop := CuePointsSpec(bytes, cue0.cuePoints, cue.numCuePoints, file.State());
      var i: nat := 0;
      while i < cue.numCuePoints
        invariant i <= cue.numCuePoints
        invariant cue == cue0.(numCuePoints := cue.numCuePoints, cuePoints := cue.cuePoints)
        invariant cue.numCuePoints == Overlay32(cue0.numCuePoints, Got(bytes, c, 4, 4))
        invariant CuePointsSpec(bytes, cue.cuePoints, cue.numCuePoints - i, file.State()) == loop
      {
        var accepted, cuePoint := ReadCuePoint(file);
        if !accepted {
          return false;
        }
        cue := cue.(cuePoints := cue.cuePoints + [cuePoint]);
        i := i + 1;
      }
      return true;
    }

    /** `readCuePoint`, filling a fresh point. */
    method ReadCuePoint(file: InputStream) returns (ok: bool, cuePoint: CuePoint)
      modifies file
      ensures ok == CuePointSpec(file.contents, old(file.State())).Accepted?
      ensures file.State() == CuePointSpec(file.contents, old(file.State())).after
      ensures ok ==> cuePoint == CuePointSpec(file.contents, old(file.State())).point
    {
      ghost var bytes, c := file.contents, file.State();
      cuePoint := CuePoint(0, 0, [], 0, 0, 0);
      RunEndZero(bytes, c);
      ReadStep(bytes, c, 0, 4);
      var got := file.Read(4);
      cuePoint := cuePoint.(identifier := Overlay32(cuePoint.identifier, got));
      ReadStep(bytes, c, 4, 4);
      got := file.Read(4);
      cuePoint := cuePoint.(position := Overlay32(cuePoint.position, got));
      ReadStep(bytes, c, 8, 4);
      var fcc := file.Read(4);
      if |fcc| != 4 {
        // The string is built from a partly written buffer, so the code
        // compares indeterminate bytes; the stream has failed by now, so
        // the point is rejected either here or at the final count check,
        // with the stream in the same state.
        return false, cuePoint;
      }
      cuePoint := cuePoint.(fccChunk := fcc);
      if cuePoint.fccChunk != DATA {
        return false, cuePoint;
      }
      ReadStep(bytes, c, 12, 4);
      got := file.Read(4);
      cuePoint := cuePoint.(chunkStart := Overlay32(cuePoint.chunkStart, got));
      ReadStep(bytes, c, 16, 4);
      got := file.Read(4);
      cuePoint := cuePoint.(blockStart := Overlay32(cuePoint.blockStart, got));
      ReadStep(bytes, c, 20, 4);
      got := file.Read(4);
      cuePoint := cuePoint.(sampleOffset := Overlay32(cuePoint.sampleOffset, got));
      if |got| != 4 {
        return false, cuePoint;
      }
      return true, cuePoint;
    }

    /** `skipChunk`. */
    method SkipChunk(file: InputStream) returns (ok: bool)
      modifies file
      ensures SkipResult(ok, file.State()) == SkipChunkSpec(file.contents, old(file.State()))
    {
      ghost var bytes, c := file.contents, file.State();
      RunEndZero(bytes, c);
      ReadStep(bytes, c, 0, 4);
      var sizeField := file.Read(4);
      if |sizeField| != 4 {
        return false;
      }
      var chunkSize := U32(sizeField);
      file.SeekG(chunkSize);
      return true;
    }
  }

  /** The "invalid wav file" case: a reader given the twelve bytes
      "INVALID DATA" does not open. */
  method InvalidWavFile() returns (didOpen: bool)
    ensures !didOpen
  {
    var reader := new Reader();
    InvalidDataRejected(reader.Members());
    didOpen := reader.Open(INVALID_DATA);
  }

  /** The "valid wav file" case: a reader given the 44-byte file with a mono,
      8-bit, 44100 Hz PCM format chunk and an empty data chunk opens and
      reports those values. */
  method ValidWavFile() returns (didOpen: bool, channels: u16, sampleRate: u32, bits: u16, format: u16)
    ensures didOpen && channels == 1 && sampleRate == 44100 && bits == 8 && format == PCM
  {
    var reader := new Reader();
    var fmt := FmtChunk(PCM, 1, 44100, 44100, 1, 8);
    MinimalFileOpens(36, fmt, reader.Members());
    didOpen := reader.Open(MinimalFile(36, fmt));
    channels := reader.GetNumChannels();
    sampleRate := reader.GetSampleRate();
    bits := reader.GetBitsPerSample();
    format := reader.GetAudioFormat();
  }
}
