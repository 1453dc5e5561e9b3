/** The four-character codes of the RIFF container and its WAVE form
    (Multimedia Programming Interface and Data Specifications 1.0, pages
    56-65), as the byte strings both readers compare against. */
module Riff {
  import opened ByteStream

  /** A four-character code: exactly four raw bytes. */
  type Tag = s: seq<byte> | |s| == 4 witness [0, 0, 0, 0]

  const RIFF: Tag := [0x52, 0x49, 0x46, 0x46]  // "RIFF"
  const WAVE: Tag := [0x57, 0x41, 0x56, 0x45]  // "WAVE"
  const FMT: Tag := [0x66, 0x6d, 0x74, 0x20]   // "fmt "
  const DATA: Tag := [0x64, 0x61, 0x74, 0x61]  // "data"
  const FACT: Tag := [0x66, 0x61, 0x63, 0x74]  // "fact"
  const CUE: Tag := [0x63, 0x75, 0x65, 0x20]   // "cue "

  const JUNK: Tag := [0x4a, 0x55, 0x4e, 0x4b]  // "JUNK"
  const LIST: Tag := [0x4c, 0x49, 0x53, 0x54]  // "LIST"
  const INFO: Tag := [0x49, 0x4e, 0x46, 0x4f]  // "INFO"
  const SMPL: Tag := [0x73, 0x6d, 0x70, 0x6c]  // "smpl"
  const INST: Tag := [0x69, 0x6e, 0x73, 0x74]  // "inst"
  const BEXT: Tag := [0x62, 0x65, 0x78, 0x74]  // "bext"
  const IXML: Tag := [0x69, 0x58, 0x4d, 0x4c]  // "iXML"

  /** Chunks the readers recognise by name but only skip. */
  const SKIPPABLE: seq<Tag> := [JUNK, LIST, INFO, SMPL, INST, BEXT, IXML]

  /** The 12-byte envelope both readers accept: "RIFF", a 4-byte size that is
      never inspected, then "WAVE". */
  predicate HeaderOk(contents: seq<byte>) {
    |contents| >= 12 && contents[..4] == RIFF && contents[8..12] == WAVE
  }

  /** A complete 24-byte cue point record at position p that refers to the
      "data" chunk: identifier, position, the 4-byte source chunk tag at
      offset 8, chunk start, block start and sample offset. */
  predicate CueRecordOk(file: seq<byte>, p: nat) {
    p + 24 <= |file| && file[p + 8..p + 12] == DATA
  }

  /** The position of the j-th record of a run of cue point records from p. */
  function RecordAt(p: nat, j: nat): nat {
    p + 24 * j
  }

  /** All k records of a run from p are good. */
  predicate RecordsOk(file: seq<byte>, p: nat, k: nat)
    decreases k
  {
    k == 0 || (CueRecordOk(file, p) && RecordsOk(file, p + 24, k - 1))
  }

  /** `RecordsOk` holds exactly when every one of the k records is good. */
  lemma {:induction false} RecordsOkAll(file: seq<byte>, p: nat, k: nat)
    ensures RecordsOk(file, p, k) <==> forall j | 0 <= j < k :: CueRecordOk(file, RecordAt(p, j))
    decreases k
  {
    assert RecordAt(p, 0) == p;
    if k > 0 {
      var q := p + 24;
      RecordsOkAll(file, q, k - 1);
      if forall j | 0 <= j < k - 1 :: CueRecordOk(file, RecordAt(q, j)) {
        forall j | 0 <= j < k ensures CueRecordOk(file, RecordAt(p, j)) || j == 0 {
          if j > 0 {
            assert RecordAt(q, j - 1) == RecordAt(p, j);
          }
        }
      }
      if forall j | 0 <= j < k :: CueRecordOk(file, RecordAt(p, j)) {
        forall j | 0 <= j < k - 1 ensures CueRecordOk(file, RecordAt(q, j)) {
          assert RecordAt(q, j) == RecordAt(p, j + 1);
        }
      }
    }
  }
}
