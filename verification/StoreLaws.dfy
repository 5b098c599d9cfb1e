/**
 The record format byte by byte, what each kind of damaged bytes is reported as, and what an
 append answers for whatever the operating system does.
 */
module StoreLaws {
  import opened Wrappers
  import opened Codec
  import opened EventLog
  import opened LogFile
  import opened StoreModel

  // ---- the bytes of a record ----

  /** The number four bytes stand for, the most significant first. */
  function FourBytes(s: bytes): nat
    requires |s| == 4
  {
    var a: int, b: int, c: int, d: int := s[0], s[1], s[2], s[3];
    a * 0x100_0000 + b * 0x1_0000 + c * 0x100 + d
  }

  lemma UnpackSnoc(s: bytes, last: byte)
    ensures Unpack(s + [last]) == 256 * Unpack(s) + last
  {
    assert (s + [last])[..|s|] == s;
  }

  lemma UnpackFour(s: bytes)
    requires |s| == 4
    ensures Unpack(s) == FourBytes(s)
  {
    assert s[..1] == [] + [s[0]] && s[..2] == s[..1] + [s[1]] && s[..3] == s[..2] + [s[2]] && s == s[..3] + [s[3]];
    hide Unpack;
    UnpackNothing();
    UnpackSnoc([], s[0]);
    UnpackSnoc(s[..1], s[1]);
    UnpackSnoc(s[..2], s[2]);
    UnpackSnoc(s[..3], s[3]);
  }

  lemma UnpackNothing()
    ensures Unpack([]) == 0
  {
  }

  /** Four bytes behind four bytes. */
  lemma UnpackEight(s: bytes)
    requires |s| == 8
    ensures Unpack(s) == FourBytes(s[..4]) * 0x1_0000_0000 + FourBytes(s[4..])
  {
    UnpackFour(s[..4]);
    assert s[..5] == s[..4] + [s[4]] && s[..6] == s[..5] + [s[5]] && s[..7] == s[..6] + [s[6]] && s == s[..7] + [s[7]];
    hide Unpack;
    UnpackSnoc(s[..4], s[4]);
    UnpackSnoc(s[..5], s[5]);
    UnpackSnoc(s[..6], s[6]);
    UnpackSnoc(s[..7], s[7]);
  }

  /**
   The layout: four magic bytes, the version, the id in eight bytes and the length in four,
   the most significant first, the payload, and the checksum over everything in front of it.
   */
  lemma RecordLayout(hash: Digest, r: Record)
    requires GoodDigest(hash) && Encodable(r)
    ensures var s := EncodeRecord(hash, r);
      && |s| == 17 + |r.payload| + 32
      && s[..4] == [0x54, 0x51, 0x45, 0x56] && s[4] == 1
      && r.id == FourBytes(s[5..9]) * 0x1_0000_0000 + FourBytes(s[9..13])
      && |r.payload| == FourBytes(s[13..17])
      && s[17..17 + |r.payload|] == r.payload && s[17 + |r.payload|..] == hash(s[..17 + |r.payload|])
  {
    var s, h := EncodeRecord(hash, r), Header(r);
    HeaderFields(r);
    assert s[..17] == h && s[..17 + |r.payload|] == h + r.payload;
    UnpackEight(h[5..13]);
    UnpackFour(h[13..17]);
    assert h[5..13][..4] == s[5..9] && h[5..13][4..] == s[9..13] && h[13..17] == s[13..17] && h[..4] == s[..4];
  }

  /** What the bytes at an offset are reported as, from the front: too few, wrong, too few again, or not what the checksum says. */
  lemma DecodeReports(hash: Digest, buf: bytes, o: nat)
    requires GoodDigest(hash) && o <= |buf|
    ensures var d, left := DecodeRecord(hash, buf, o), |buf| - o;
      if left < 4 then d == Incomplete
      else if buf[o..o + 4] != [0x54, 0x51, 0x45, 0x56] then d == BadMagic
      else if left < 17 then d == Incomplete
      else if buf[o + 4] != 1 then d == UnsupportedVersion
      else
        var n := FourBytes(buf[o + 13..o + 17]);
        if left < 17 + n + 32 then d == Incomplete
        else if buf[o + 17 + n..o + 17 + n + 32] != hash(buf[o..o + 17 + n]) then d == ChecksumMismatch(o + 17 + n + 32)
        else d == Complete(Record(FourBytes(buf[o + 5..o + 9]) * 0x1_0000_0000 + FourBytes(buf[o + 9..o + 13]), buf[o + 17..o + 17 + n]),
                           17 + n + 32)
  {
    if |buf| - o >= 17 {
      var id, length := buf[o + 5..o + 13], buf[o + 13..o + 17];
      UnpackFour(length);
      UnpackEight(id);
      assert id[..4] == buf[o + 5..o + 9] && id[4..] == buf[o + 9..o + 13];
      var n := FourBytes(length);
      if |buf| - o >= 17 + n {
        assert buf[o..o + 17] + buf[o + 17..o + 17 + n] == buf[o..o + 17 + n];
      }
      hide Unpack, FourBytes;
    }
  }

  // ---- files that are refused ----

  /** What stands at the first bad offset, behind these records. */
  predicate Damaged<P>(f: Format<P>, data: bytes, at: nat, fault: Fault, before: Option<nat>) {
    match fault
    case WrongMagic => f.frame.decode(data, at) == BadMagic
    case WrongVersion => f.frame.decode(data, at) == UnsupportedVersion
    case WrongChecksum =>
      f.frame.decode(data, at).ChecksumMismatch? && f.frame.decode(data, at).endOffset != |data|
    case Unparseable =>
      f.frame.decode(data, at).Complete? && f.parse(f.frame.decode(data, at).record.payload) == None
    case NotIncreasing =>
      && f.frame.decode(data, at).Complete? && f.parse(f.frame.decode(data, at).record.payload).Some?
      && before.Some? && f.frame.decode(data, at).record.id <= before.value
  }

  /** A refused file: intact records up to the offset that is reported, and there the damage that is. */
  lemma {:induction false} RefusedMeans<P>(f: Format<P>, data: bytes, offset: nat, last: Option<nat>) returns (ss: seq<Stored<P>>)
    requires Sound(f.frame) && offset <= |data| && ScanFrom(f, data, offset, last).Corrupt?
    ensures var scan := ScanFrom(f, data, offset, last);
      && offset <= scan.at < |data| && AllGenuine(f, ss) && Ascending(ss, last)
      && data[offset..scan.at] == EncodeAll(f, ss)
      && Damaged(f, data, scan.at, scan.fault, LastId(ss, last))
    decreases |data| - offset
  {
    var scan := ScanFrom(f, data, offset, last);
    ss := [];
    if ScansOn(f, data, offset, last) {
      var d := f.frame.decode(data, offset);
      var s := TakenAt(f, data, offset);
      hide ScanFrom, Damaged, EncodeAll, Sound;
      var rest := RefusedMeans(f, data, offset + d.consumed, Some(d.record.id));
      ss := [s] + rest;
      EncodeAllCons(f, s, rest, last);
      SlicesJoin(data, offset, offset + d.consumed, scan.at);
      assert LastId(ss, last) == LastId(rest, Some(d.record.id));
    } else {
      StopsAtOnce(f, data, offset, last);
      assert data[offset..offset] == [];
      hide ScanFrom, Damaged, Sound;
    }
  }

  lemma SlicesJoin(data: bytes, i: nat, j: nat, k: nat)
    requires i <= j <= k <= |data|
    ensures data[i..k] == data[i..j] + data[j..k]
  {
  }

  lemma StopsAtOnce<P>(f: Format<P>, data: bytes, offset: nat, last: Option<nat>)
    requires offset <= |data| && ScanFrom(f, data, offset, last).Corrupt? && !ScansOn(f, data, offset, last)
    ensures var scan := ScanFrom(f, data, offset, last);
      scan.at == offset < |data| && Damaged(f, data, offset, scan.fault, last)
  {
  }

  /** The scan goes on behind a record it takes. */
  lemma TakenAt<P>(f: Format<P>, data: bytes, offset: nat) returns (s: Stored<P>)
    requires Sound(f.frame) && offset < |data| && f.frame.decode(data, offset).Complete?
    requires f.parse(f.frame.decode(data, offset).record.payload).Some?
    ensures var d := f.frame.decode(data, offset);
      && s.event.id == d.record.id && Genuine(f, s) && RecordOf(s) == d.record && offset + d.consumed <= |data|
      && data[offset..offset + d.consumed] == f.frame.encode(RecordOf(s))
    ensures forall last: Option<nat> :: (last.Some? ==> s.event.id > last.value) ==>
      ScanFrom(f, data, offset, last) == Prepend([s], ScanFrom(f, data, offset + f.frame.decode(data, offset).consumed, Some(s.event.id)))
  {
    var d := f.frame.decode(data, offset);
    var envelope := f.parse(d.record.payload).value;
    s := Stored(Event(d.record.id, envelope.key, envelope.payload), d.record.payload);
    assert RecordAt(f.frame, data, offset, d.record);
  }

  predicate ScansOn<P>(f: Format<P>, data: bytes, offset: nat, last: Option<nat>)
    requires offset <= |data|
  {
    offset < |data| && f.frame.decode(data, offset).Complete? &&
    var r := f.frame.decode(data, offset).record;
    f.parse(r.payload).Some? && (last.Some? ==> r.id > last.value)
  }

  // ---- what an append answers ----

  /** The bytes a row of writes puts down: each adds what it reports, the first without progress ends it. */
  function Progress(writes: seq<int>): nat {
    if writes == [] || writes[0] <= 0 then 0 else writes[0] + Progress(writes[1..])
  }

  lemma {:induction false} WrittenIsProgress(n: nat, writes: seq<int>)
    ensures Written(n, writes).0 == (if Progress(writes) < n then Progress(writes) else n)
    decreases |writes|
  {
    if n > 0 && writes != [] && 0 < writes[0] < n {
      WrittenIsProgress(n - writes[0], writes[1..]);
    }
  }

  /**
   An append.  A key that is taken gets its event.  A record the format cannot hold is
   refused untouched.  Any other is stored under the next id exactly when the writes put
   every byte down and the sync succeeds; otherwise the file is cut, or padded, to where
   the cursor stood, and memory stays.
   */
  lemma AppendAnswers<P>(f: Format<P>, s: Store<P>, key: Option<string>, payload: P, os: Os)
    requires Coherent(s)
    ensures var (s', out) := Append(f, s, key, payload, os);
            var event := Event(NextId(s.events), key, payload);
            var bytes := f.ser(Envelope(key, payload));
            var record := f.frame.encode(Record(event.id, bytes));
      if key.Some? && HasKey(s.events, key.value) then s' == s && out.Present?
      else if event.id >= 0x1_0000_0000_0000_0000 || |bytes| >= 0x1_0000_0000 then (s', out) == (s, TooLarge)
      else if Progress(os.writes) >= |record| && os.syncs then
        && out == Outcome.Appended(event) && s'.file == s.file + record && s'.events == s.events + [event]
        && s'.nextId == event.id + 1 && (record != [] ==> s'.cursor == |s'.file|)
      else
        var down := if Progress(os.writes) < |record| then Progress(os.writes) else |record|;
        && out == WriteFailed && s'.events == s.events && s'.nextId == s.nextId && s'.byId == s.byId && s'.index == s.index
        && |s'.file| == s.cursor
        && (forall i :: 0 <= i < |s'.file| ==>
             s'.file[i] == if i < |s.file| then s.file[i] else if i < |s.file| + down then record[i - |s.file|] else 0)
        && s'.cursor == if down == 0 then s.cursor else |s.file| + down
  {
    var rec := NewRecord(f, s, key, payload);
    WrittenIsProgress(|f.frame.encode(RecordOf(rec))|, os.writes);
    if key.Some? {
      Indexed(s.events, key.value);
    }
  }
}
