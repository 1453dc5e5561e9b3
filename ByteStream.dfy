/** Byte-level model of the input the WAVE readers consume: fixed-width
    little-endian fields, and the cursor semantics of a binary-mode
    `std::ifstream` over a file's bytes (read, seekg from the current
    position, tellg). */
module ByteStream {

  type byte = b: int | 0 <= b < 0x100
  type u16 = x: int | 0 <= x < 0x1_0000
  type u32 = x: int | 0 <= x < 0x1_0000_0000

  function Min(a: int, b: int): int { if a <= b then a else b }

  function Max(a: int, b: int): int { if a >= b then a else b }

  lemma {:induction false} AppendAssoc<T>(a: seq<T>, b: seq<T>, c: seq<T>)
    ensures (a + b) + c == a + (b + c)
  {
  }

  /** 256 to the power n: the number of values an n-byte field holds. */
  function Pow256(n: nat): (r: nat)
    ensures r >= 1
  {
    if n == 0 then 1 else 256 * Pow256(n - 1)
  }

  lemma {:induction false} Pow256Widths()
    ensures Pow256(2) == 0x1_0000 && Pow256(4) == 0x1_0000_0000
  {
  }

  /** Little-endian value of a byte string: byte 0 is the least significant. */
  function LE(bs: seq<byte>): (v: nat)
    ensures v < Pow256(|bs|)
  {
    if bs == [] then 0 else bs[0] + 256 * LE(bs[1..])
  }

  /** The n low-order bytes of v, least significant first: the memory image of
      an n-byte unsigned field on a little-endian host. */
  function Encode(v: nat, n: nat): (bs: seq<byte>)
    ensures |bs| == n
    ensures v < Pow256(n) ==> LE(bs) == v
  {
    if n == 0 then []
    else
      var bs := [v % 256] + Encode(v / 256, n - 1);
      assert bs[1..] == Encode(v / 256, n - 1);
      bs
  }

  /** A 16-bit field read from exactly two bytes. */
  function U16(bs: seq<byte>): u16
    requires |bs| == 2
  {
    Pow256Widths();
    LE(bs)
  }

  /** A 32-bit field read from exactly four bytes. */
  function U32(bs: seq<byte>): u32
    requires |bs| == 4
  {
    Pow256Widths();
    LE(bs)
  }

  /** The first byte of a 16-bit field is its low-order byte. */
  lemma {:induction false} U16Value(bs: seq<byte>)
    requires |bs| == 2
    ensures U16(bs) == bs[0] as int + 0x100 * bs[1] as int
  {
    assert LE(bs[1..]) == bs[1] as int + 256 * LE(bs[1..][1..]);
    assert bs[1..][1..] == [];
  }

  /** The bytes of a 32-bit field, from the least to the most significant. */
  lemma {:induction false} U32Value(bs: seq<byte>)
    requires |bs| == 4
    ensures U32(bs) == bs[0] as int + 0x100 * bs[1] as int + 0x1_0000 * bs[2] as int + 0x100_0000 * bs[3] as int
  {
    var b1, b2, b3 := bs[1..], bs[2..], bs[3..];
    assert b1[1..] == b2 && b2[1..] == b3 && b3[1..] == [];
    assert LE(b3) == bs[3] as int;
    assert LE(b2) == bs[2] as int + 256 * bs[3] as int;
    assert LE(b1) == bs[1] as int + 256 * LE(b2);
  }

  /** A byte string is the little-endian image of its own value. */
  lemma {:induction false} EncodeLE(bs: seq<byte>)
    ensures Encode(LE(bs), |bs|) == bs
    decreases bs
  {
    if bs != [] {
      EncodeLE(bs[1..]);
      assert LE(bs) % 256 == bs[0] && LE(bs) / 256 == LE(bs[1..]);
      assert [bs[0]] + bs[1..] == bs;
    }
  }

  /** The value of an n-byte field after `read` stored the bytes `got` at its
      low-order end and left its other bytes as they were: a short read only
      partly overwrites the field. */
  function Overlay(prev: nat, n: nat, got: seq<byte>): (v: nat)
    requires |got| <= n
    ensures v < Pow256(n)
    ensures |got| == n ==> v == LE(got)
    ensures got == [] && prev < Pow256(n) ==> v == prev
    ensures Encode(v, n) == got + Encode(prev, n)[|got|..]
  {
    var image := Encode(prev, n);
    assert |got| == n ==> got + image[|got|..] == got;
    assert got == [] ==> got + image[|got|..] == image;
    EncodeLE(got + image[|got|..]);
    LE(got + image[|got|..])
  }

  function Overlay16(prev: u16, got: seq<byte>): (v: u16)
    requires |got| <= 2
    ensures |got| == 2 ==> v == U16(got)
    ensures got == [] ==> v == prev
    ensures Encode(v, 2) == got + Encode(prev, 2)[|got|..]
  {
    Pow256Widths();
    Overlay(prev, 2, got)
  }

  function Overlay32(prev: u32, got: seq<byte>): (v: u32)
    requires |got| <= 4
    ensures |got| == 4 ==> v == U32(got)
    ensures got == [] ==> v == prev
    ensures Encode(v, 4) == got + Encode(prev, 4)[|got|..]
  {
    Pow256Widths();
    Overlay(prev, 4, got)
  }

  /** A one-byte read into a 32-bit field holding 0x11223344 replaces its
      low byte only. */
  lemma {:induction false} PartialReadKeepsHighBytes()
    ensures Overlay32(0x11223344, [0xaa]) == 0x112233aa
  {
    var v := Overlay32(0x11223344, [0xaa]);
    var image := Encode(v, 4);
    assert Encode(0x11223344, 4) == [0x44, 0x33, 0x22, 0x11];
    assert image == [0xaa, 0x33, 0x22, 0x11];
    Pow256Widths();
    U32Value(image);
  }

  /** `std::vector::resize(n)`: keeps the first min(n, |buf|) elements and
      appends zero bytes up to length n. */
  function Resized(buf: seq<byte>, n: nat): (r: seq<byte>)
    ensures |r| == n
    ensures forall i | 0 <= i < Min(n, |buf|) :: r[i] == buf[i]
    ensures forall i | |buf| <= i < n :: r[i] == 0
  {
    if n <= |buf| then buf[..n] else buf + seq(n - |buf|, _ => 0)
  }

  /** A position in an input file stream over the bytes of a file. `pos` is
      what `tellg` reports while the stream is good and may lie past the end
      of the file, which `seekg` allows; `failed` is the failbit, which a
      short read sets together with the eofbit, so that `good()` is exactly
      `!failed`. */
  datatype Cursor = Cursor(pos: nat, failed: bool)

  /** A freshly opened stream. */
  const START: Cursor := Cursor(0, false)

  /** The number of bytes of the file from the position on. */
  function Remaining(file: seq<byte>, c: Cursor): nat {
    if c.pos <= |file| then |file| - c.pos else 0
  }

  /** The bytes of the file from position pos on, at most n of them. */
  function Window(file: seq<byte>, pos: nat, n: nat): (w: seq<byte>)
    ensures pos <= |file| ==> w == file[pos..Min(pos + n, |file|)]
    ensures pos > |file| ==> w == []
  {
    if pos <= |file| then file[pos..Min(pos + n, |file|)] else []
  }

  datatype ReadResult = ReadResult(got: seq<byte>, after: Cursor)

  /** `read(buf, k)`: on a good stream it delivers min(k, remaining) bytes
      (`gcount()` is their number) and sets the failbit when that is fewer
      than k; on a failed stream it delivers nothing. */
  function ReadFrom(file: seq<byte>, c: Cursor, k: nat): (r: ReadResult)
    ensures |r.got| <= k
    ensures r.after.failed <==> c.failed || Remaining(file, c) < k
    ensures !c.failed ==> r.got == Window(file, c.pos, k)
    ensures !c.failed ==> |r.got| == Min(k, Remaining(file, c)) && r.after.pos == c.pos + |r.got|
    ensures c.failed ==> r == ReadResult([], c)
  {
    if c.failed then ReadResult([], c)
    else
      var got := Window(file, c.pos, k);
      ReadResult(got, Cursor(c.pos + |got|, |got| < k))
  }

  /** Where a run of reads totalling n bytes leaves a stream that started at
      c: n bytes further on and still good when the file has them (or when
      the run is empty), otherwise failed at the end of the file, or where it
      was when it started past the end or had already failed. */
  function RunEnd(file: seq<byte>, c: Cursor, n: nat): (d: Cursor)
    ensures d.pos >= c.pos
    ensures !d.failed <==> !c.failed && (n == 0 || c.pos + n <= |file|)
    ensures !d.failed ==> d.pos == c.pos + n
  {
    if c.failed || n == 0 then c
    else if c.pos + n <= |file| then Cursor(c.pos + n, false)
    else Cursor(Max(c.pos, |file|), true)
  }

  /** What the read of k bytes at offset off in such a run delivers: the
      file's bytes from there on, as many as there are, or nothing once the
      stream has failed. */
  function Got(file: seq<byte>, c: Cursor, off: nat, k: nat): (got: seq<byte>)
    ensures |got| <= k
    ensures |got| == k <==> k == 0 || (!c.failed && c.pos + off + k <= |file|)
    ensures !c.failed && c.pos + off + k <= |file| ==> got == file[c.pos + off..c.pos + off + k]
  {
    if c.failed then [] else Window(file, c.pos + off, k)
  }

  /** One more read in a run: it delivers `Got` and extends the run. */
  lemma {:induction false} ReadStep(file: seq<byte>, c: Cursor, off: nat, k: nat)
    ensures ReadFrom(file, RunEnd(file, c, off), k) == ReadResult(Got(file, c, off, k), RunEnd(file, c, off + k))
  {
  }

  lemma {:induction false} RunEndZero(file: seq<byte>, c: Cursor)
    ensures RunEnd(file, c, 0) == c
  {
  }

  /** Bytes a to b after the cursor's position. */
  function Field(file: seq<byte>, c: Cursor, a: nat, b: nat): (bs: seq<byte>)
    requires a <= b && c.pos + b <= |file|
    ensures |bs| == b - a
  {
    file[c.pos + a..c.pos + b]
  }

  /** The bytes of `piece` occur in s at position p. */
  predicate At(s: seq<byte>, p: nat, piece: seq<byte>) {
    p + |piece| <= |s| && s[p..p + |piece|] == piece
  }

  /** Where a concatenation occurs, its two parts occur one after the
      other. */
  lemma {:induction false} AtSplit(s: seq<byte>, p: nat, a: seq<byte>, b: seq<byte>)
    requires At(s, p, a + b)
    ensures At(s, p, a) && At(s, p + |a|, b)
  {
    forall i | 0 <= i < |a| ensures s[p..p + |a|][i] == a[i] {
      assert s[p..p + |a|][i] == s[p..p + |a + b|][i];
    }
    forall i | 0 <= i < |b| ensures s[p + |a|..p + |a| + |b|][i] == b[i] {
      assert s[p + |a|..p + |a| + |b|][i] == s[p..p + |a + b|][|a| + i];
    }
  }

  /** `seekg(off, std::ios::cur)` with a non-negative offset: a good stream
      moves forward, also past the end of the file; a failed one stays. */
  function SeekFrom(c: Cursor, off: nat): (d: Cursor)
    ensures d.failed == c.failed
    ensures d.pos == if c.failed then c.pos else c.pos + off
  {
    if c.failed then c else Cursor(c.pos + off, false)
  }

  /** `tellg()`: the position, or -1 once the stream has failed. */
  function TellOf(c: Cursor): (p: int)
    ensures p >= 0 <==> !c.failed
    ensures !c.failed ==> p == c.pos
  {
    if c.failed then -1 else c.pos
  }

  /** The file stream object: the file's bytes, the read position and the
      failbit. `State()` is the cursor it stands for. */
  class InputStream {
    const contents: seq<byte>
    var pos: nat
    var failed: bool

    function State(): Cursor
      reads this
    {
      Cursor(pos, failed)
    }

    constructor (contents: seq<byte>)
      ensures this.contents == contents
      ensures State() == START
    {
      this.contents := contents;
      pos := 0;
      failed := false;
    }

    /** `read(buf, k)`; the length of `got` is `gcount()`. */
    method Read(k: nat) returns (got: seq<byte>)
      modifies this
      ensures got == ReadFrom(contents, old(State()), k).got
      ensures State() == ReadFrom(contents, old(State()), k).after
    {
      if failed {
        return [];
      }
      if pos < |contents| {
        got := contents[pos..Min(pos + k, |contents|)];
      } else {
        got := [];
      }
      pos := pos + |got|;
      failed := |got| < k;
    }

    /** `seekg(off, std::ios::cur)`. */
    method SeekG(off: nat)
      modifies this
      ensures State() == SeekFrom(old(State()), off)
    {
      if !failed {
        pos := pos + off;
      }
    }

    /** `tellg()`. */
    method TellG() returns (p: int)
      ensures p == TellOf(State())
    {
      p := if failed then -1 else pos;
    }
  }
}
