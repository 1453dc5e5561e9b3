# WAVE chunk walker, verified in Dafny

This project models the RIFF/WAVE reader of the header-only C++ library
`wav-utils-cpp`. The library has two variants. Each is a module here,
because both define the same names.

- `WavUtils` models `wav::WavFileUtils` (include/wav/WavFileUtils.hpp).
  Tags are compared as 4-byte `Id` values. The `data` decoder and the
  generic skipper skip the RIFF pad byte after an odd-sized payload.
  `fact` is decoded: it reads exactly two 4-byte fields.
- `WavReader` models `wav::Reader` (include/wav/Reader.hpp). Tags are
  compared as strings. No pad byte is ever skipped. `fact` is skipped by
  its declared size. The `data` decoder copies the current format and
  sample width into its chunk, and records the stream offset of the first
  sample byte.

Both variants share the same `open` structure:

1. It reads the 12-byte envelope: "RIFF", a size that is never looked at,
   then "WAVE".
2. It loops while the stream is good. Each turn reads a 4-byte tag. A
   short tag read ends the loop normally. Otherwise the tag selects a
   decoder (`fmt `, `data`, `fact`, `cue ` or the generic skipper), and a
   decoder that fails makes `open` return false.
3. After the loop, `open` succeeds only if a `fmt ` chunk was decoded. Only
   that path sets `isOpen`.

Two shared modules support these:

- `ByteStream` models the input stream: a file's bytes plus a cursor. The
  cursor has a position, which `seekg` may move past the end of the file,
  and a failbit, set by a short read.
  - `read(k)` delivers min(k, remaining) bytes.
  - A partial read into a fixed-width field overwrites only that field's
    low-order bytes, as the code's `reinterpret_cast` reads do on a
    little-endian host.
  - `tellg` reports -1 once the stream has failed.
- `Riff` holds the four-character codes. It also holds the predicates on
  the envelope and on cue point records.

Every decoder is written twice:

- A function `XxxSpec` of the member it updates and the cursor. It says
  what the decoder leaves behind, read by read. Lemmas `XxxDecodes` then
  state what that means in terms of the file's bytes.
- A method of the class (`WavFileUtils` or `Reader`). It performs the
  code's reads and seeks in order on an `InputStream` object and updates
  the member fields in place. Its postcondition ties the new members and
  the stream state to the function.

The `open` loop is a `while` loop over the stream. Its invariant ties it to
the recursive function `Walk`, and it terminates on the number of bytes
remaining. The properties of `open` are proved about `Walk` and `OpenSpec`.

The model follows the code, including where its behaviour is surprising:

- Not every decoder leaves the stream at chunk start + 8 + size + pad,
  although the code's comments (include/wav/WavFileUtils.hpp:363-365,
  393, 494-495, 508) describe the pad byte as a rule of the RIFF format.
  - `fmt ` always reads 16 bytes, even when the declared size is below 16,
    and never skips a pad byte.
  - `WavFileUtils`' `fact` consumes exactly 8 bytes whatever size is
    declared.
  - `Reader` never skips a pad byte.
- A failing `cue ` chunk leaves the points it accepted before the bad one
  appended to the member. Earlier `open` calls' points stay as well,
  because nothing is reset between calls.
- A `data` chunk before any `fmt ` chunk passes the format check, because
  the format member starts out as PCM.
- `isOpen` is never set back to false.
- A cue point whose source-tag read comes up short has its tag built
  from a partly uninitialised local buffer. The model rejects such a
  record outright. That is exact: the short read has failed the stream, so
  the reads after it deliver nothing, and the final `gcount` check rejects the
  record whatever the buffer held.

## Model

| member | source | states |
|---|---|---|
| ByteStream.Encode | include/wav/WavFileUtils.hpp:331 | the n-byte little-endian image of a value that fits has that value when read back |
| ByteStream.U32Value | include/wav/WavFileUtils.hpp:331 | a 4-byte field read on a little-endian host is its bytes weighted 1, 2^8, 2^16, 2^24 |
| ByteStream.U16Value | include/wav/WavFileUtils.hpp:338 | a 2-byte field is its first byte plus 256 times its second |
| ByteStream.EncodeLE | include/wav/WavFileUtils.hpp:331 | a byte string is the little-endian image of its own value |
| ByteStream.Overlay | include/wav/WavFileUtils.hpp:437 | after a read of k <= n bytes into an n-byte field, the field's memory image is the k bytes read followed by the old image's bytes k to n - 1; a complete read gives the bytes' value, an empty one leaves the field unchanged |
| ByteStream.Overlay16 | include/wav/WavFileUtils.hpp:338-343 | the same for a 16-bit field: its 2-byte image is the bytes read followed by the old image's remaining bytes |
| ByteStream.Overlay32 | include/wav/WavFileUtils.hpp:437 | the same for a 32-bit field: its 4-byte image is the bytes read followed by the old image's remaining bytes |
| ByteStream.PartialReadKeepsHighBytes | include/wav/WavFileUtils.hpp:437 | a one-byte read into a 32-bit field holding 0x11223344 leaves 0x112233AA |
| ByteStream.Resized | include/wav/WavFileUtils.hpp:383 | `resize(n)` keeps the first min(n, old length) elements and adds zeros up to length n |
| ByteStream.ReadFrom | include/wav/WavFileUtils.hpp:254-259 | a read of k bytes on a good stream delivers min(k, remaining) bytes and sets the failbit exactly when that is fewer than k; a failed stream delivers nothing and stays as it is |
| ByteStream.RunEnd | include/wav/WavFileUtils.hpp:338-343 | a run of consecutive reads of n bytes ends n bytes on and good exactly when the file has them, otherwise failed |
| ByteStream.Got | include/wav/WavFileUtils.hpp:338-343 | the read at offset off of such a run is complete exactly when the stream started good and the file has those bytes, and then delivers them |
| ByteStream.ReadStep | include/wav/WavFileUtils.hpp:338-343 | one more read in a run delivers `Got` and extends the run by its length |
| ByteStream.SeekFrom | include/wav/WavFileUtils.hpp:506 | `seekg(off, cur)` moves a good stream forward, also past the end, keeps it good, and leaves a failed one alone |
| ByteStream.TellOf | include/wav/Reader.hpp:273 | `tellg` is the position on a good stream and negative exactly on a failed one |
| ByteStream.InputStream.Read | include/wav/WavFileUtils.hpp:254-259 | the stream's read delivers and moves as `ReadFrom` says |
| ByteStream.InputStream.SeekG | include/wav/WavFileUtils.hpp:506 | the stream's seek moves as `SeekFrom` says |
| ByteStream.InputStream.TellG | include/wav/Reader.hpp:273 | the stream's tell reports as `TellOf` says |
| Riff.RecordsOkAll | include/wav/WavFileUtils.hpp:440-446 | the run of k cue records from p is good exactly when every record j, at p + 24j, is whole and refers to "data" |
| WavUtils.FromChars | include/wav/WavFileUtils.hpp:21-24 | the identifier's bytes are the first four characters, in order |
| WavUtils.FromCharsBytes | include/wav/WavFileUtils.hpp:21-24 | building an identifier from an identifier's bytes gives it back |
| WavUtils.SameIdBytes | include/wav/WavFileUtils.hpp:28-29 | `==` holds exactly when all four bytes agree; `!=` holds exactly when one of them differs |
| WavUtils.SameId | include/wav/WavFileUtils.hpp:28 | `operator==` holds exactly when all four bytes agree |
| WavUtils.DifferentId | include/wav/WavFileUtils.hpp:29 | `operator!=` holds exactly when some byte differs |
| WavUtils.TrailingSpaceMatters | include/wav/WavFileUtils.hpp:21-29 | "fmt" plus a fourth byte equals the format chunk's identifier exactly when that byte is a space |
| WavUtils.FmtChunkSpec | include/wav/WavFileUtils.hpp:329-355 | reference definition of `readFmtChunk`, read by read, each field overlaid with what its read delivers; the stream never moves back |
| WavUtils.FmtChunkDecodes | include/wav/WavFileUtils.hpp:329-355 | `readFmtChunk` succeeds exactly when 4 + 16 bytes remain; it then holds the six fields little-endian in file order and ends at start + 4 + max(size, 16), with no pad; a short size field changes nothing; `chunkSize` is never written |
| WavUtils.DataChunkSpec | include/wav/WavFileUtils.hpp:367-399 | reference definition of `readDataChunk`: size overlay, format check, resize and front read, pad seek; the stream never moves back |
| WavUtils.DataChunkDecodes | include/wav/WavFileUtils.hpp:367-399 | `readDataChunk` succeeds exactly when the size field is whole, the format is 1 or 3 and all payload bytes are there; the samples then are exactly those bytes, or are left alone for size 0; the stream skips one pad byte for an odd size; a rejected format leaves the samples alone |
| WavUtils.FactChunkSpec | include/wav/WavFileUtils.hpp:406-421 | reference definition of `readFactChunk`: size read, sample count overlaid; the stream never moves back |
| WavUtils.FactChunkDecodes | include/wav/WavFileUtils.hpp:406-421 | `readFactChunk` succeeds exactly when 8 bytes remain, stores the sample count and ends 8 bytes on whatever size is declared; a short size field changes nothing |
| WavUtils.DecodeCuePoint | include/wav/WavFileUtils.hpp:456-478 | a decoded record's source identifier is the record's bytes 8 to 11 |
| WavUtils.GoodPrefix | include/wav/WavFileUtils.hpp:439-446 | reference decoding of k cue records from p: the records before the first bad one, decoded; at most k points |
| WavUtils.GoodPrefixPoints | include/wav/WavFileUtils.hpp:439-446 | point j of the reference decoding is record j, which is good, decoded |
| WavUtils.GoodPrefixComplete | include/wav/WavFileUtils.hpp:439-446 | the reference decoding has all k points exactly when all k records are good, and otherwise stops just before a bad record |
| WavUtils.CuePointSpec | include/wav/WavFileUtils.hpp:456-478 | reference definition of `readCuePoint`: rejected after 12 bytes for another tag, after 24 for a short record; the stream never moves back |
| WavUtils.CuePointDecodes | include/wav/WavFileUtils.hpp:456-478 | `readCuePoint` accepts exactly a whole record naming "data" and returns it decoded, 24 bytes on; a record naming another chunk is rejected just past its tag |
| WavUtils.CuePointsSpec | include/wav/WavFileUtils.hpp:439-446 | reference definition of the `for` loop of `readCueChunk`: append each accepted point, stop at the first rejection; the stream never moves back |
| WavUtils.CuePointsDecode | include/wav/WavFileUtils.hpp:439-446 | the cue loop appends the reference decoding of the next k records to the points held before, and succeeds exactly when all k are good, 24k bytes on |
| WavUtils.CueChunkSpec | include/wav/WavFileUtils.hpp:428-449 | reference definition of `readCueChunk`: size read, count overlaid, the point loop; `chunkSize` is never written and the stream never moves back |
| WavUtils.CueChunkShort | include/wav/WavFileUtils.hpp:428-449 | a short size field fails with nothing stored; a short count field overwrites only the count's low bytes, appends nothing and succeeds only if that count is 0 |
| WavUtils.CueChunkDecodes | include/wav/WavFileUtils.hpp:428-449 | with a whole count field the count is stored, the reference decoding of that many records is appended, and `readCueChunk` succeeds exactly when all are good, ending after the last |
| WavUtils.SkipChunkSpec | include/wav/WavFileUtils.hpp:497-514 | reference definition of `skipChunk`: size read, seek over the payload and the pad byte of an odd size; the stream never moves back |
| WavUtils.Skippable | include/wav/WavFileUtils.hpp:281-284 | a tag is one the loop names and skips exactly when its bytes are one of JUNK, LIST, INFO, smpl, inst, bext, iXML |
| WavUtils.ChunkSpec | include/wav/WavFileUtils.hpp:264-294 | reference definition of the dispatch chain; no decoder touches `isOpen` and the stream never moves back |
| WavUtils.Decoded | include/wav/WavFileUtils.hpp:264-280 | a tag with a decoder of its own is not one of the skipped names, so the order of the chain's tests does not matter |
| WavUtils.SkippableLikeUnknown | include/wav/WavFileUtils.hpp:281-294 | JUNK, LIST, INFO, smpl, inst, bext and iXML are handled exactly like any tag without a decoder |
| WavUtils.UnknownChunkSkipped | include/wav/WavFileUtils.hpp:281-294 | a turn at such a tag with a whole size field succeeds, keeps every member and moves past size, payload and pad |
| WavUtils.Walk | include/wav/WavFileUtils.hpp:250-295 | reference definition of the chunk loop; the loop never changes `isOpen` |
| WavUtils.OpenSpec | include/wav/WavFileUtils.hpp:228-303 | a file without the 12-byte RIFF...WAVE envelope is rejected with nothing changed; success sets `isOpen`; failure leaves it as it was |
| WavUtils.WalkFmt | include/wav/WavFileUtils.hpp:250-295 | the loop reports a format chunk only if a complete one lies ahead; a loop that completes without one leaves the format members alone |
| WavUtils.WalkKeepsCuePoints | include/wav/WavFileUtils.hpp:439-446 | the cue points held before the loop remain its result's first points |
| WavUtils.ChunkKeepsCuePoints | include/wav/WavFileUtils.hpp:264-294 | no decoder removes cue points held before |
| WavUtils.CueKeepsPoints | include/wav/WavFileUtils.hpp:439-446 | `readCueChunk` only appends to the points it holds |
| WavUtils.OpenNeedsFmt | include/wav/WavFileUtils.hpp:250-303 | `open` succeeds only on a file with the envelope and a complete `fmt ` chunk after it, and then sets `isOpen`; on failure `isOpen` keeps its old value; earlier cue points stay |
| WavUtils.SameFromBytes | include/wav/WavFileUtils.hpp:252-295 | two files that agree from q on deliver the same bytes to every read from q on |
| WavUtils.CuePointsSame | include/wav/WavFileUtils.hpp:439-446 | the cue loop reads nothing before its cursor |
| WavUtils.FmtSame | include/wav/WavFileUtils.hpp:329-355 | `readFmtChunk` reads nothing before its cursor |
| WavUtils.DataSame | include/wav/WavFileUtils.hpp:367-399 | `readDataChunk` reads nothing before its cursor |
| WavUtils.FactSame | include/wav/WavFileUtils.hpp:406-421 | `readFactChunk` reads nothing before its cursor |
| WavUtils.SkipSame | include/wav/WavFileUtils.hpp:497-514 | `skipChunk` reads nothing before its cursor |
| WavUtils.CueSame | include/wav/WavFileUtils.hpp:428-449 | `readCueChunk` reads nothing before its cursor |
| WavUtils.ChunkSame | include/wav/WavFileUtils.hpp:264-294 | a turn of the dispatch reads nothing before its cursor |
| WavUtils.WalkSame | include/wav/WavFileUtils.hpp:252-295 | the loop reads nothing before its cursor |
| WavUtils.RiffSizeIgnored | include/wav/WavFileUtils.hpp:228-245 | replacing bytes 4 to 7, the RIFF size, changes nothing about `open` |
| WavUtils.WavFileUtils.constructor | include/wav/WavFileUtils.hpp:185-187 | a new reader starts from the default members, with format PCM and `isOpen` false |
| WavUtils.WavFileUtils.Open | include/wav/WavFileUtils.hpp:204-304 | `open` over the file's bytes returns and stores what `OpenSpec` describes |
| WavUtils.WavFileUtils.WalkChunks | include/wav/WavFileUtils.hpp:250-295 | the `while (file.good())` loop ends in the state `Walk` describes |
| WavUtils.WavFileUtils.DispatchChunk | include/wav/WavFileUtils.hpp:264-294 | the if-chain on the identifier runs the decoder `ChunkSpec` selects |
| WavUtils.WavFileUtils.ReadFmtChunk | include/wav/WavFileUtils.hpp:329-355 | the six reads and the seek leave `fmt_` and the stream as `FmtChunkSpec` says |
| WavUtils.WavFileUtils.ReadDataChunk | include/wav/WavFileUtils.hpp:367-399 | the size read, format check, resize, sample read and pad seek leave `data_` and the stream as `DataChunkSpec` says |
| WavUtils.WavFileUtils.ReadFactChunk | include/wav/WavFileUtils.hpp:406-421 | the two reads leave `fact_` and the stream as `FactChunkSpec` says |
| WavUtils.WavFileUtils.ReadCueChunk | include/wav/WavFileUtils.hpp:428-449 | the reads and the `for` loop of `push_back`s leave `cue_` and the stream as `CueChunkSpec` says |
| WavUtils.WavFileUtils.ReadCuePoint | include/wav/WavFileUtils.hpp:456-478 | the six reads with the tag check accept, return and move as `CuePointSpec` says |
| WavUtils.WavFileUtils.SkipChunk | include/wav/WavFileUtils.hpp:497-514 | the size read and the two seeks move the stream as `SkipChunkSpec` says |
| WavReader.FmtChunkSpec | include/wav/Reader.hpp:220-246 | reference definition of `readFmtChunk`, read by read, each field overlaid with what its read delivers; the stream never moves back |
| WavReader.FmtChunkDecodes | include/wav/Reader.hpp:220-246 | `readFmtChunk` succeeds exactly when 4 + 16 bytes remain; it then holds the six fields little-endian in file order and skips size - 16 bytes when size exceeds 16; a short size field changes nothing |
| WavReader.DataChunkSpec | include/wav/Reader.hpp:254-288 | reference definition of `readDataChunk`: size overlay, format copy and check, `tellg`, resize and front read; the stream never moves back |
| WavReader.DataChunkDecodes | include/wav/Reader.hpp:254-288 | `readDataChunk` succeeds exactly when the size field is whole, the format is 1 or 3 and all payload bytes are there; format and width are copied before the check; offset is the position after the size field; samples are exactly the payload (kept for size 0); no pad byte is skipped |
| WavReader.DecodeCuePoint | include/wav/Reader.hpp:342-364 | a decoded record's source tag is the record's bytes 8 to 11 |
| WavReader.GoodPrefix | include/wav/Reader.hpp:326-332 | reference decoding of k cue records from p: the records before the first bad one, decoded; at most k points |
| WavReader.GoodPrefixPoints | include/wav/Reader.hpp:326-332 | point j of the reference decoding is record j, which is good, decoded |
| WavReader.GoodPrefixComplete | include/wav/Reader.hpp:326-332 | the reference decoding has all k points exactly when all k records are good, and otherwise stops just before a bad record |
| WavReader.CuePointSpec | include/wav/Reader.hpp:342-364 | reference definition of `readCuePoint`: rejected after 12 bytes for another tag, after 24 for a short record; the stream never moves back |
| WavReader.CuePointDecodes | include/wav/Reader.hpp:342-364 | `readCuePoint` accepts exactly a whole record naming "data" and returns it decoded; a record naming another chunk is rejected just past its tag |
| WavReader.CuePointsSpec | include/wav/Reader.hpp:326-332 | reference definition of the `for` loop of `readCueChunk`: append each accepted point, stop at the first rejection; the stream never moves back |
| WavReader.CuePointsDecode | include/wav/Reader.hpp:326-332 | the cue loop appends the reference decoding of the next k records and succeeds exactly when all k are good, 24k bytes on |
| WavReader.CueChunkSpec | include/wav/Reader.hpp:314-335 | reference definition of `readCueChunk`: size read, count overlaid, the point loop; the stream never moves back |
| WavReader.CueChunkShort | include/wav/Reader.hpp:314-335 | a short size field fails with nothing stored; a short count field overwrites only the count's low bytes, appends nothing and succeeds only if that count is 0 |
| WavReader.CueChunkDecodes | include/wav/Reader.hpp:314-335 | with a whole count field the count is stored, the reference decoding of that many records is appended, and `readCueChunk` succeeds exactly when all are good |
| WavReader.SkipChunkSpec | include/wav/Reader.hpp:370-382 | reference definition of `skipChunk` and of `readFactChunk` (include/wav/Reader.hpp:295-307), which has the same body: size read, seek over the payload, no pad; the stream never moves back |
| WavReader.Skippable | include/wav/Reader.hpp:179-180 | a tag is one the loop names and skips exactly when it is one of JUNK, LIST, INFO, smpl, inst, bext, iXML |
| WavReader.ChunkSpec | include/wav/Reader.hpp:162-190 | reference definition of the dispatch chain; no decoder touches `isOpen` and the stream never moves back |
| WavReader.Decoded | include/wav/Reader.hpp:162-178 | a tag whose decoder stores something is neither `fact` nor one of the skipped names |
| WavReader.SkippableLikeUnknown | include/wav/Reader.hpp:162-190 | `fact` and the seven skippable tags are handled exactly like an unknown tag |
| WavReader.UnknownChunkSkipped | include/wav/Reader.hpp:162-190 | a turn at such a tag with a whole size field succeeds, keeps every member and moves past size and payload only |
| WavReader.Walk | include/wav/Reader.hpp:148-191 | reference definition of the chunk loop; the loop never changes `isOpen` |
| WavReader.OpenSpec | include/wav/Reader.hpp:126-199 | a file without the 12-byte RIFF...WAVE envelope is rejected with nothing changed; success sets `isOpen`; failure leaves it as it was |
| WavReader.WalkFmt | include/wav/Reader.hpp:148-191 | the loop reports a format chunk only if a complete one lies ahead; a loop that completes without one leaves the format member alone |
| WavReader.WalkKeepsCuePoints | include/wav/Reader.hpp:326-332 | the cue points held before the loop remain its result's first points |
| WavReader.ChunkKeepsCuePoints | include/wav/Reader.hpp:162-190 | no decoder removes cue points held before |
| WavReader.CueKeepsPoints | include/wav/Reader.hpp:326-332 | `readCueChunk` only appends to the points it holds |
| WavReader.OpenNeedsFmt | include/wav/Reader.hpp:148-199 | `open` succeeds only on a file with the envelope and a complete `fmt ` chunk after it, and then sets `isOpen`; on failure `isOpen` keeps its old value; earlier cue points stay |
| WavReader.InvalidDataRejected | test/test_basics.cpp:10-23 | the twelve bytes "INVALID DATA" are rejected with nothing changed |
| WavReader.MinimalFile | test/test_basics.cpp:28-57 | the test's file is 44 bytes long |
| WavReader.MinimalFileLayout | test/test_basics.cpp:28-57 | the test's file holds the envelope, a 16-byte `fmt ` chunk with the given fields and an empty `data` chunk at their offsets |
| WavReader.MinimalFmtTurn | include/wav/Reader.hpp:220-246 | the first turn over that file decodes exactly the given format fields and ends at byte 36 |
| WavReader.MinimalDataTurn | include/wav/Reader.hpp:254-288 | the second turn succeeds exactly for format 1 or 3, records size 0 and offset 44 in that format, and ends at byte 44 |
| WavReader.MinimalFileWalk | include/wav/Reader.hpp:148-191 | the loop over that file completes with a format chunk exactly for format 1 or 3 |
| WavReader.MinimalFileOpens | test/test_basics.cpp:25-64 | the test's file opens exactly when its format is 1 or 3, whatever the reader held, and then reports the given format fields and an empty data chunk at offset 44 |
| WavReader.InvalidWavFile | test/test_basics.cpp:10-23 | a fresh reader does not open "INVALID DATA" |
| WavReader.ValidWavFile | test/test_basics.cpp:25-64 | a fresh reader opens the test's file, and the getters report 1 channel, 44100 Hz, 8 bits and format PCM |
| WavReader.Reader.constructor | include/wav/Reader.hpp:83-85 | a new reader starts from the default members, with formats PCM and `isOpen` false |
| WavReader.Reader.Open | include/wav/Reader.hpp:102-200 | `open` over the file's bytes returns and stores what `OpenSpec` describes |
| WavReader.Reader.WalkChunks | include/wav/Reader.hpp:148-191 | the `while (file.good())` loop ends in the state `Walk` describes |
| WavReader.Reader.DispatchChunk | include/wav/Reader.hpp:162-190 | the if-chain on the tag string runs the decoder `ChunkSpec` selects |
| WavReader.Reader.ReadFmtChunk | include/wav/Reader.hpp:220-246 | the six reads and the seek leave `fmt_` and the stream as `FmtChunkSpec` says |
| WavReader.Reader.ReadDataChunk | include/wav/Reader.hpp:254-288 | the size read, format copy and check, `tellg`, resize and sample read leave `data_` and the stream as `DataChunkSpec` says |
| WavReader.Reader.ReadFactChunk | include/wav/Reader.hpp:295-307 | the size read and seek move the stream as `SkipChunkSpec` says and store nothing |
| WavReader.Reader.ReadCueChunk | include/wav/Reader.hpp:314-335 | the reads and the `for` loop of `push_back`s leave `cue_` and the stream as `CueChunkSpec` says |
| WavReader.Reader.ReadCuePoint | include/wav/Reader.hpp:342-364 | the six reads with the tag check accept, return and move as `CuePointSpec` says |
| WavReader.Reader.SkipChunk | include/wav/Reader.hpp:370-382 | the size read and the seek move the stream as `SkipChunkSpec` says |

## Left out

- Path handling, `std::filesystem::absolute`, the console messages and the
  opening of the `ifstream` (include/wav/WavFileUtils.hpp:195-226,
  include/wav/Reader.hpp:93-124) are file-system I/O. `Open` takes the
  file's bytes instead. The empty-filename check and the "file does not
  exist" test (test/test_basics.cpp:5-8) belong to that part.
- The `std::cerr` diagnostics of the data decoders are side-channel logging
  only.
- The structures declared but never used by the parser (`ListHeader`,
  `LabelChunk`, `NoteChunk`, `LabelTextChunk`, `SampleLoop`,
  `SamplerChunk`), `readAdtlChunk`, which is never called, and
  `Id::toString`, which only formats for display, are not modelled.
- examples/basic_usage.cpp is a command-line demonstration with file-system
  probing and printing. It is not part of this model.
- A `std::bad_alloc` from resizing the sample buffer to a huge declared
  size is not modelled: the model's buffers are unbounded.
- Host dependence: the model fixes a little-endian host and a 64-bit
  `long`. Of the `long` and `unsigned long` members, only the low four
  bytes are ever written, so they are modelled as unsigned 32-bit values.
- What the sample bytes mean as PCM or float samples is not modelled. The
  code stores raw bytes only.
- The getters (`isOpen`, `getNumChannels`, `getSampleRate`,
  `getBitsPerSample`, `getAudioFormat`, `getRawSampleData`, `getFmtChunk`,
  `getDataChunk`, `getFactChunk`, `getCueChunk`) are plain reads of a
  member. They are modelled as functions without contracts, and
  `ValidWavFile` states what they report.
- The test harness mechanics (doctest, temporary files) are not modelled.
  Only the tests' assertions are stated.
