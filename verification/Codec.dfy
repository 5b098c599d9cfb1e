/**
 Framing of one record in the log file:

   magic (4) | version (1) | event id (8, big-endian) | payload length (4, big-endian)
   | payload | checksum (32)

 The checksum function is a parameter: any total function into 32 bytes will do.
 */
module Codec {

  type byte = b: int | 0 <= b < 256
  type bytes = seq<byte>

  const MAGIC: bytes := [0x54, 0x51, 0x45, 0x56]
  const FORMAT_VERSION: byte := 1
  const CHECKSUM_SIZE: nat := 32
  const HEADER_SIZE: nat := 17
  const MAX_ID: nat := 0x1_0000_0000_0000_0000
  const MAX_LENGTH: nat := 0x1_0000_0000

  type Digest = bytes -> bytes

  ghost predicate GoodDigest(hash: Digest) {
    forall data: bytes :: |hash(data)| == CHECKSUM_SIZE
  }

  datatype Record = Record(id: nat, payload: bytes)

  /** What the fixed-width fields can hold; the packer refuses anything else. */
  predicate Encodable(r: Record) {
    r.id < MAX_ID && |r.payload| < MAX_LENGTH
  }

  // ---- big-endian integers ----

  function Pow256(n: nat): (p: nat)
    ensures p > 0
  {
    if n == 0 then 1 else 256 * Pow256(n - 1)
  }

  function Pack(value: nat, width: nat): (s: bytes)
    ensures |s| == width
  {
    if width == 0 then [] else Pack(value / 256, width - 1) + [value % 256]
  }

  function Unpack(s: bytes): nat {
    if s == [] then 0 else 256 * Unpack(s[..|s| - 1]) + s[|s| - 1]
  }

  lemma {:induction false} UnpackPack(value: nat, width: nat)
    requires value < Pow256(width)
    ensures Unpack(Pack(value, width)) == value
  {
    if width > 0 {
      assert value / 256 < Pow256(width - 1);
      UnpackPack(value / 256, width - 1);
      var s := Pack(value, width);
      assert s[..|s| - 1] == Pack(value / 256, width - 1);
    }
  }

  lemma {:induction false} PackUnpack(s: bytes)
    ensures Unpack(s) < Pow256(|s|)
    ensures Pack(Unpack(s), |s|) == s
  {
    if s != [] {
      var front, last := s[..|s| - 1], s[|s| - 1];
      PackUnpack(front);
      assert Unpack(s) == 256 * Unpack(front) + last;
      assert Unpack(s) / 256 == Unpack(front) && Unpack(s) % 256 == last;
      assert s == front + [last];
    }
  }

  lemma Widths()
    ensures Pow256(4) == MAX_LENGTH && Pow256(8) == MAX_ID
  {
    assert Pow256(2) == 0x1_0000;
    assert Pow256(4) == 0x1_0000_0000;
    assert Pow256(6) == 0x1_0000_0000_0000;
  }

  // ---- records ----

  function Header(r: Record): (s: bytes)
    requires Encodable(r)
    ensures |s| == HEADER_SIZE
  {
    MAGIC + [FORMAT_VERSION] + Pack(r.id, 8) + Pack(|r.payload|, 4)
  }

  function EncodeRecord(hash: Digest, r: Record): bytes
    requires Encodable(r)
  {
    Header(r) + r.payload + hash(Header(r) + r.payload)
  }

  datatype Decoded =
    | Complete(record: Record, consumed: nat)
    | Incomplete
    | BadMagic
    | UnsupportedVersion
    | ChecksumMismatch(endOffset: nat)

  function DecodeRecord(hash: Digest, buf: bytes, offset: nat): (d: Decoded)
    requires offset <= |buf|
    ensures d.Complete? ==> 0 < d.consumed <= |buf| - offset
  {
    var available := |buf| - offset;
    if available < |MAGIC| then Incomplete
    else if buf[offset..offset + |MAGIC|] != MAGIC then BadMagic
    else if available < HEADER_SIZE then Incomplete
    else if buf[offset + 4] != FORMAT_VERSION then UnsupportedVersion
    else
      var id := Unpack(buf[offset + 5..offset + 13]);
      var length := Unpack(buf[offset + 13..offset + 17]);
      var payloadStart := offset + HEADER_SIZE;
      var payloadEnd := payloadStart + length;
      var checksumEnd := payloadEnd + CHECKSUM_SIZE;
      if |buf| < checksumEnd then Incomplete
      else
        var payload := buf[payloadStart..payloadEnd];
        var checksum := buf[payloadEnd..checksumEnd];
        if checksum != hash(buf[offset..payloadStart] + payload) then ChecksumMismatch(checksumEnd)
        else Complete(Record(id, payload), checksumEnd - offset)
  }

  lemma SliceOfSlice(s: bytes, o: nat, n: nat, i: nat, j: nat)
    requires i <= j <= n && o + n <= |s|
    ensures s[o..o + n][i..j] == s[o + i..o + j]
  {
    var left, right := s[o..o + n][i..j], s[o + i..o + j];
    forall k | 0 <= k < j - i
      ensures left[k] == right[k]
    {
      assert left[k] == s[o..o + n][i + k] == s[o + i + k];
    }
  }

  lemma HeaderFields(r: Record)
    requires Encodable(r)
    ensures var h := Header(r);
            h[..4] == MAGIC && h[4] == FORMAT_VERSION && Unpack(h[5..13]) == r.id && Unpack(h[13..17]) == |r.payload|
  {
    var h := Header(r);
    Widths();
    UnpackPack(r.id, 8);
    UnpackPack(|r.payload|, 4);
    assert h[5..13] == Pack(r.id, 8);
    assert h[13..17] == Pack(|r.payload|, 4);
  }

  /** A whole encoded record decodes to itself, whatever stands before and after it. */
  lemma DecodeInvertsEncode(hash: Digest, buf: bytes, o: nat, r: Record)
    requires GoodDigest(hash) && Encodable(r)
    requires var n := |EncodeRecord(hash, r)|; o + n <= |buf| && buf[o..o + n] == EncodeRecord(hash, r)
    ensures DecodeRecord(hash, buf, o) == Complete(r, |EncodeRecord(hash, r)|)
  {
    var enc := EncodeRecord(hash, r);
    var h := Header(r);
    HeaderFields(r);
    var n, pe := |enc|, HEADER_SIZE + |r.payload|;
    SliceOfSlice(buf, o, n, 0, HEADER_SIZE);
    SliceOfSlice(buf, o, n, HEADER_SIZE, pe);
    SliceOfSlice(buf, o, n, pe, n);
    assert enc[0..HEADER_SIZE] == h && enc[HEADER_SIZE..pe] == r.payload && enc[pe..n] == hash(h + r.payload);
    SliceOfSlice(buf, o, HEADER_SIZE, 0, 4);
    SliceOfSlice(buf, o, HEADER_SIZE, 5, 13);
    SliceOfSlice(buf, o, HEADER_SIZE, 13, 17);
    assert buf[o + 4] == buf[o..o + HEADER_SIZE][4];
  }

  /** Only an encoded record decodes: the bytes consumed are exactly its encoding. */
  lemma DecodeIsExact(hash: Digest, buf: bytes, offset: nat)
    requires GoodDigest(hash) && offset <= |buf|
    requires DecodeRecord(hash, buf, offset).Complete?
    ensures var d := DecodeRecord(hash, buf, offset);
            Encodable(d.record) && buf[offset..offset + d.consumed] == EncodeRecord(hash, d.record)
  {
    var d := DecodeRecord(hash, buf, offset);
    var idField, lengthField := buf[offset + 5..offset + 13], buf[offset + 13..offset + 17];
    Widths();
    PackUnpack(idField);
    PackUnpack(lengthField);
    var start := offset + HEADER_SIZE;
    var end := start + Unpack(lengthField);
    assert buf[offset..start] == buf[offset..offset + 4] + [buf[offset + 4]] + idField + lengthField;
    assert buf[offset..start] == Header(d.record);
    assert buf[offset..offset + d.consumed]
        == buf[offset..start] + buf[start..end] + buf[end..offset + d.consumed];
  }

  /** A proper prefix of an encoded record at the end of the buffer reads as incomplete. */
  lemma PrefixIsIncomplete(hash: Digest, buf: bytes, o: nat, r: Record, k: nat)
    requires GoodDigest(hash) && Encodable(r) && k < |EncodeRecord(hash, r)|
    requires o <= |buf| && buf[o..] == EncodeRecord(hash, r)[..k]
    ensures DecodeRecord(hash, buf, o) == Incomplete
  {
    var tail, h := buf[o..], Header(r);
    HeaderFields(r);
    if k >= 4 {
      assert buf[o..o + 4] == tail[..4] == h[..4];
    }
    if k >= HEADER_SIZE {
      assert buf[o + 4] == tail[4] == h[4];
      assert buf[o + 13..o + 17] == tail[13..17] == h[13..17];
    }
  }

  // ---- the framing as the store uses it ----

  /** An encoder and a decoder that fit each other. */
  datatype Framing = Framing(encode: Record -> bytes, decode: Decoder)

  type Decoder = d: (bytes, nat) -> Decoded |
    forall buf: bytes, o: nat :: d(buf, o).Complete? ==> 0 < d(buf, o).consumed && o + d(buf, o).consumed <= |buf|
    witness (buf, o) => Incomplete

  function Framed(hash: Digest): Framing {
    Framing(
      r => if Encodable(r) then EncodeRecord(hash, r) else [],
      (buf: bytes, o: nat) => if o <= |buf| then DecodeRecord(hash, buf, o) else Incomplete)
  }

  ghost predicate RecordAt(f: Framing, buf: bytes, o: nat, r: Record) {
    o + |f.encode(r)| <= |buf| && buf[o..o + |f.encode(r)|] == f.encode(r)
  }

  ghost predicate CutAt(f: Framing, buf: bytes, o: nat, r: Record) {
    o <= |buf| && |buf| - o < |f.encode(r)| && buf[o..] == f.encode(r)[..|buf| - o]
  }

  ghost predicate Sound(f: Framing) {
    && (forall r :: Encodable(r) ==> f.encode(r) != [])
    && (forall buf, o, r {:trigger RecordAt(f, buf, o, r)} :: Encodable(r) && RecordAt(f, buf, o, r) ==> f.decode(buf, o) == Complete(r, |f.encode(r)|))
    && (forall buf, o :: f.decode(buf, o).Complete? ==>
          Encodable(f.decode(buf, o).record) && RecordAt(f, buf, o, f.decode(buf, o).record)
          && f.decode(buf, o).consumed == |f.encode(f.decode(buf, o).record)|)
    && (forall buf, o, r {:trigger CutAt(f, buf, o, r)} :: Encodable(r) && CutAt(f, buf, o, r) ==> f.decode(buf, o) == Incomplete)
  }

  /**
   The record format is sound for every checksum function: whole records decode to
   themselves, nothing else decodes, and every proper prefix reads as incomplete.
   */
  lemma FramingIsSound(hash: Digest)
    requires GoodDigest(hash)
    ensures Sound(Framed(hash))
  {
    var f := Framed(hash);
    forall buf, o, r | Encodable(r) && RecordAt(f, buf, o, r)
      ensures f.decode(buf, o) == Complete(r, |f.encode(r)|)
    {
      DecodeInvertsEncode(hash, buf, o, r);
    }
    forall buf, o | f.decode(buf, o).Complete?
      ensures Encodable(f.decode(buf, o).record) && RecordAt(f, buf, o, f.decode(buf, o).record)
           && f.decode(buf, o).consumed == |f.encode(f.decode(buf, o).record)|
    {
      DecodeIsExact(hash, buf, o);
    }
    forall buf, o, r | Encodable(r) && CutAt(f, buf, o, r)
      ensures f.decode(buf, o) == Incomplete
    {
      PrefixIsIncomplete(hash, buf, o, r, |buf| - o);
    }
  }
}
