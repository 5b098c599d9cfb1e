/**
 Reading a whole log file: the scan that separates accepted records, a torn tail and
 corruption, and the exact description of the files it accepts.
 */
module LogFile {
  import opened Wrappers
  import opened Codec
  import opened EventLog

  datatype Envelope<+P> = Envelope(key: Option<string>, payload: P)

  /** The record framing and the envelope's serialiser and parser. */
  datatype Format<!P> = Format(
    frame: Framing,
    ser: Envelope<P> -> bytes,
    parse: bytes -> Option<Envelope<P>>)

  ghost predicate GoodFormat<P(!new)>(f: Format<P>) {
    Sound(f.frame) && forall e :: f.parse(f.ser(e)) == Some(e)
  }

  /** One accepted record: the event it carries and its payload bytes as found in the file. */
  datatype Stored<+P> = Stored(event: Event<string, P>, raw: bytes)

  function RecordOf<P>(s: Stored<P>): Record {
    Record(s.event.id, s.raw)
  }

  function EventsOf<P>(ss: seq<Stored<P>>): (es: seq<Event<string, P>>)
    ensures |es| == |ss|
  {
    seq(|ss|, i requires 0 <= i < |ss| => ss[i].event)
  }

  ghost predicate Genuine<P>(f: Format<P>, s: Stored<P>) {
    Encodable(RecordOf(s)) && f.parse(s.raw) == Some(Envelope(s.event.key, s.event.payload))
  }

  ghost predicate AllGenuine<P>(f: Format<P>, ss: seq<Stored<P>>) {
    forall i :: 0 <= i < |ss| ==> Genuine(f, ss[i])
  }

  ghost function EncodeAll<P>(f: Format<P>, ss: seq<Stored<P>>): bytes
    requires AllGenuine(f, ss)
  {
    if ss == [] then [] else f.frame.encode(RecordOf(ss[0])) + EncodeAll(f, ss[1..])
  }

  // ---- the scan ----

  datatype Fault = WrongMagic | WrongVersion | WrongChecksum | Unparseable | NotIncreasing

  datatype Scan<+P> =
    | Accepted(records: seq<Stored<P>>, stop: nat, torn: bool)
    | Corrupt(fault: Fault, at: nat)

  function Prepend<P>(front: seq<Stored<P>>, s: Scan<P>): Scan<P> {
    if s.Accepted? then s.(records := front + s.records) else s
  }

  function ScanFrom<P>(f: Format<P>, data: bytes, offset: nat, last: Option<nat>): Scan<P>
    requires offset <= |data|
    decreases |data| - offset
  {
    if offset == |data| then Accepted([], offset, false)
    else match f.frame.decode(data, offset)
      case Incomplete => Accepted([], offset, true)
      case BadMagic => Corrupt(WrongMagic, offset)
      case UnsupportedVersion => Corrupt(WrongVersion, offset)
      case ChecksumMismatch(end) =>
        if end == |data| then Accepted([], offset, true) else Corrupt(WrongChecksum, offset)
      case Complete(r, n) =>
        var envelope := f.parse(r.payload);
        if envelope.None? then Corrupt(Unparseable, offset)
        else if last.Some? && r.id <= last.value then Corrupt(NotIncreasing, offset)
        else
          var s := Stored(Event(r.id, envelope.value.key, envelope.value.payload), r.payload);
          Prepend([s], ScanFrom(f, data, offset + n, Some(r.id)))
  }

  /** The scan as the store runs it: one pass, advancing by the bytes each record consumed. */
  method ScanFile<P>(f: Format<P>, data: bytes) returns (scan: Scan<P>)
    ensures scan == ScanFrom(f, data, 0, None)
  {
    var records: seq<Stored<P>> := [];
    var offset := 0;
    var last: Option<nat> := None;
    var torn := false;
    while offset < |data| && !torn
      invariant offset <= |data|
      invariant torn ==> ScanFrom(f, data, 0, None) == Accepted(records, offset, true)
      invariant !torn ==> ScanFrom(f, data, 0, None) == Prepend(records, ScanFrom(f, data, offset, last))
      decreases |data| - offset, !torn
    {
      match f.frame.decode(data, offset)
      case Incomplete =>
        torn := true;
        assert records + [] == records;
      case BadMagic => return Corrupt(WrongMagic, offset);
      case UnsupportedVersion => return Corrupt(WrongVersion, offset);
      case ChecksumMismatch(end) =>
        if end != |data| { return Corrupt(WrongChecksum, offset); }
        torn := true;
        assert records + [] == records;
      case Complete(r, n) =>
        var envelope := f.parse(r.payload);
        if envelope.None? { return Corrupt(Unparseable, offset); }
        if last.Some? && r.id <= last.value { return Corrupt(NotIncreasing, offset); }
        var s := Stored(Event(r.id, envelope.value.key, envelope.value.payload), r.payload);
        PrependAssociates(records, [s], ScanFrom(f, data, offset + n, Some(r.id)));
        records := records + [s];
        last := Some(r.id);
        offset := offset + n;
    }
    assert records + [] == records;
    scan := Accepted(records, offset, torn);
  }

  lemma PrependNothing<P>(s: Scan<P>)
    ensures Prepend([], s) == s
  {
  }

  lemma PrependAssociates<P>(a: seq<Stored<P>>, b: seq<Stored<P>>, s: Scan<P>)
    ensures Prepend(a, Prepend(b, s)) == Prepend(a + b, s)
  {
  }

  // ---- what the scan accepts ----

  ghost predicate Ascending<P>(ss: seq<Stored<P>>, last: Option<nat>) {
    && (last.Some? ==> forall i :: 0 <= i < |ss| ==> last.value < ss[i].event.id)
    && forall i, j :: 0 <= i < j < |ss| ==> ss[i].event.id < ss[j].event.id
  }

  /** The bytes from `at` on are what a crash during one append can leave behind. */
  ghost predicate TornAt<P>(f: Format<P>, data: bytes, at: nat)
    requires at <= |data|
  {
    at < |data| &&
    (f.frame.decode(data, at) == Incomplete || f.frame.decode(data, at) == ChecksumMismatch(|data|))
  }

  lemma EncodeAllCons<P>(f: Format<P>, s: Stored<P>, rest: seq<Stored<P>>, last: Option<nat>)
    requires Genuine(f, s) && AllGenuine(f, rest) && Ascending(rest, Some(s.event.id))
    requires last.Some? ==> last.value < s.event.id
    ensures AllGenuine(f, [s] + rest) && Ascending([s] + rest, last)
    ensures EncodeAll(f, [s] + rest) == f.frame.encode(RecordOf(s)) + EncodeAll(f, rest)
  {
    assert ([s] + rest)[1..] == rest;
  }

  /** The scan's answer from `offset` describes the bytes from there on. */
  ghost predicate Describes<P>(f: Format<P>, data: bytes, offset: nat, last: Option<nat>, a: Scan<P>)
    requires a.Accepted?
  {
    && offset <= a.stop <= |data|
    && AllGenuine(f, a.records) && Ascending(a.records, last)
    && data[offset..a.stop] == EncodeAll(f, a.records)
    && (a.torn <==> a.stop < |data|)
    && (a.torn ==> TornAt(f, data, a.stop))
  }

  lemma DescribesOneMore<P>(
      f: Format<P>, data: bytes, offset: nat, mid: nat, last: Option<nat>, s: Stored<P>, rest: Scan<P>)
    requires rest.Accepted? && Describes(f, data, mid, Some(s.event.id), rest)
    requires Genuine(f, s) && (last.Some? ==> last.value < s.event.id)
    requires offset <= mid && data[offset..mid] == f.frame.encode(RecordOf(s))
    ensures Describes(f, data, offset, last, Prepend([s], rest))
  {
    EncodeAllCons(f, s, rest.records, last);
    assert data[offset..rest.stop] == data[offset..mid] + data[mid..rest.stop];
  }

  lemma {:induction false} ScanIsCanonical<P>(f: Format<P>, data: bytes, offset: nat, last: Option<nat>)
    requires Sound(f.frame) && offset <= |data|
    requires ScanFrom(f, data, offset, last).Accepted?
    ensures Describes(f, data, offset, last, ScanFrom(f, data, offset, last))
    decreases |data| - offset
  {
    if offset < |data| {
      var d := f.frame.decode(data, offset);
      if d.Complete? {
        var mid, id := offset + d.consumed, d.record.id;
        ScanIsCanonical(f, data, mid, Some(id));
        assert RecordAt(f.frame, data, offset, d.record);
        var envelope := f.parse(d.record.payload).value;
        var s := Stored(Event(id, envelope.key, envelope.payload), d.record.payload);
        DescribesOneMore(f, data, offset, mid, last, s, ScanFrom(f, data, mid, Some(id)));
      }
    }
  }

  lemma EncodeAllSplits<P>(
      f: Format<P>, ss: seq<Stored<P>>, data: bytes, offset: nat, stop: nat, last: Option<nat>)
    requires AllGenuine(f, ss) && ss != [] && Ascending(ss, last)
    requires offset <= stop <= |data| && data[offset..stop] == EncodeAll(f, ss)
    ensures var mid := offset + |f.frame.encode(RecordOf(ss[0]))|;
      && mid <= stop
      && data[offset..mid] == f.frame.encode(RecordOf(ss[0]))
      && AllGenuine(f, ss[1..]) && data[mid..stop] == EncodeAll(f, ss[1..])
    ensures Ascending(ss[1..], Some(ss[0].event.id))
  {
    var enc := f.frame.encode(RecordOf(ss[0]));
    var cell := data[offset..stop];
    assert cell[..|enc|] == enc && cell[|enc|..] == EncodeAll(f, ss[1..]);
    assert data[offset..offset + |enc|] == cell[..|enc|];
    assert data[offset + |enc|..stop] == cell[|enc|..];
  }

  lemma ScanTakes<P>(f: Format<P>, data: bytes, offset: nat, s: Stored<P>, n: nat, last: Option<nat>)
    requires Genuine(f, s) && offset < |data| && f.frame.decode(data, offset) == Complete(RecordOf(s), n)
    requires last.Some? ==> last.value < s.event.id
    ensures offset + n <= |data|
    ensures ScanFrom(f, data, offset, last) == Prepend([s], ScanFrom(f, data, offset + n, Some(s.event.id)))
  {
  }

  lemma ScanStops<P>(f: Format<P>, data: bytes, offset: nat, last: Option<nat>)
    requires offset <= |data| && (offset < |data| ==> TornAt(f, data, offset))
    ensures ScanFrom(f, data, offset, last) == Accepted([], offset, offset < |data|)
  {
  }

  function LastId<P>(ss: seq<Stored<P>>, last: Option<nat>): Option<nat> {
    if ss == [] then last else Some(ss[|ss| - 1].event.id)
  }

  lemma ScanTakesFirst<P>(
      f: Format<P>, data: bytes, offset: nat, ss: seq<Stored<P>>, n: nat, last: Option<nat>, rest: Scan<P>)
    requires ss != [] && Genuine(f, ss[0]) && (last.Some? ==> last.value < ss[0].event.id)
    requires offset < |data| && f.frame.decode(data, offset) == Complete(RecordOf(ss[0]), n)
    requires ScanFrom(f, data, offset + n, Some(ss[0].event.id)) == Prepend(ss[1..], rest)
    ensures ScanFrom(f, data, offset, last) == Prepend(ss, rest)
  {
    ScanTakes(f, data, offset, ss[0], n, last);
    PrependAssociates([ss[0]], ss[1..], rest);
    assert [ss[0]] + ss[1..] == ss;
  }

  /** The scan passes over intact records and goes on behind them with `rest`. */
  lemma {:induction false} ScanPasses<P>(
      f: Format<P>, data: bytes, offset: nat, stop: nat, ss: seq<Stored<P>>, last: Option<nat>, rest: Scan<P>)
    requires Sound(f.frame) && AllGenuine(f, ss) && Ascending(ss, last)
    requires offset <= stop <= |data| && data[offset..stop] == EncodeAll(f, ss)
    requires rest == ScanFrom(f, data, stop, LastId(ss, last))
    ensures ScanFrom(f, data, offset, last) == Prepend(ss, rest)
    decreases |ss|
  {
    hide ScanFrom, Prepend;
    if ss == [] {
      PrependNothing(rest);
    } else {
      EncodeAllSplits(f, ss, data, offset, stop, last);
      var s, n := ss[0], |f.frame.encode(RecordOf(ss[0]))|;
      assert RecordAt(f.frame, data, offset, RecordOf(s));
      assert LastId(ss[1..], Some(s.event.id)) == LastId(ss, last);
      ScanPasses(f, data, offset + n, stop, ss[1..], Some(s.event.id), rest);
      ScanTakesFirst(f, data, offset, ss, n, last, rest);
    }
  }

  lemma ScanInvertsEncoding<P>(f: Format<P>, data: bytes, stop: nat, ss: seq<Stored<P>>)
    requires Sound(f.frame) && AllGenuine(f, ss) && Ascending(ss, None)
    requires stop <= |data| && data[..stop] == EncodeAll(f, ss)
    requires stop < |data| ==> TornAt(f, data, stop)
    ensures ScanFrom(f, data, 0, None) == Accepted(ss, stop, stop < |data|)
  {
    assert data[0..stop] == data[..stop];
    ScanStops(f, data, stop, LastId(ss, None));
    ScanPasses(f, data, 0, stop, ss, None, Accepted([], stop, stop < |data|));
    assert ss + [] == ss;
  }

  /** Both directions at once: exactly these files are accepted, and with exactly this result. */
  lemma ScanAcceptsExactly<P>(f: Format<P>, data: bytes, ss: seq<Stored<P>>, stop: nat, torn: bool)
    requires Sound(f.frame)
    ensures ScanFrom(f, data, 0, None) == Accepted(ss, stop, torn)
       <==> (&& stop <= |data| && AllGenuine(f, ss) && Ascending(ss, None)
             && data[..stop] == EncodeAll(f, ss)
             && (torn <==> stop < |data|) && (torn ==> TornAt(f, data, stop)))
  {
    if ScanFrom(f, data, 0, None) == Accepted(ss, stop, torn) {
      ScanIsCanonical(f, data, 0, None);
      assert data[0..stop] == data[..stop];
    }
    if stop <= |data| && AllGenuine(f, ss) && Ascending(ss, None) && data[..stop] == EncodeAll(f, ss)
      && (torn <==> stop < |data|) && (torn ==> TornAt(f, data, stop)) {
      ScanInvertsEncoding(f, data, stop, ss);
    }
  }

  lemma {:induction false} EncodeAllSnoc<P>(f: Format<P>, ss: seq<Stored<P>>, s: Stored<P>)
    requires AllGenuine(f, ss) && Genuine(f, s)
    ensures AllGenuine(f, ss + [s])
    ensures EncodeAll(f, ss + [s]) == EncodeAll(f, ss) + f.frame.encode(RecordOf(s))
  {
    if ss == [] {
      assert EncodeAll(f, [s]) == f.frame.encode(RecordOf(s)) + [];
    } else {
      EncodeAllSnoc(f, ss[1..], s);
      assert (ss + [s])[1..] == ss[1..] + [s];
    }
  }

  /** A file whose records are all complete and intact. */
  ghost predicate Clean<P>(f: Format<P>, data: bytes, events: seq<Event<string, P>>) {
    var s := ScanFrom(f, data, 0, None);
    s.Accepted? && !s.torn && s.stop == |data| && EventsOf(s.records) == events
  }

  /** The records of a clean file, and the bytes they encode to. */
  lemma CleanRecords<P>(f: Format<P>, data: bytes, events: seq<Event<string, P>>) returns (ss: seq<Stored<P>>)
    requires Sound(f.frame) && Clean(f, data, events)
    ensures AllGenuine(f, ss) && Ascending(ss, None)
    ensures data == EncodeAll(f, ss) && EventsOf(ss) == events
  {
    ss := ScanFrom(f, data, 0, None).records;
    ScanIsCanonical(f, data, 0, None);
    assert data[0..|data|] == data;
  }

  /** A clean file followed by a proper prefix of a record scans to its own events. */
  lemma CutShort<P>(f: Format<P>, data: bytes, events: seq<Event<string, P>>, s: Stored<P>, k: nat)
    requires Sound(f.frame) && Clean(f, data, events) && Genuine(f, s)
    requires k < |f.frame.encode(RecordOf(s))|
    ensures var scan := ScanFrom(f, data + f.frame.encode(RecordOf(s))[..k], 0, None);
            scan.Accepted? && EventsOf(scan.records) == events && scan.stop == |data| && (scan.torn <==> 0 < k)
  {
    var part := f.frame.encode(RecordOf(s))[..k];
    var cut := data + part;
    var ss := CleanRecords(f, data, events);
    assert cut[|data|..] == part && cut[..|data|] == data;
    assert CutAt(f.frame, cut, |data|, RecordOf(s));
    ScanInvertsEncoding(f, cut, |data|, ss);
  }

  /** A clean file followed by a whole record with a larger id is clean. */
  lemma CutWhole<P>(f: Format<P>, data: bytes, events: seq<Event<string, P>>, s: Stored<P>)
    requires Sound(f.frame) && Clean(f, data, events) && Genuine(f, s)
    requires events != [] ==> events[|events| - 1].id < s.event.id
    ensures Clean(f, data + f.frame.encode(RecordOf(s)), events + [s.event])
  {
    hide ScanFrom, EncodeAll, Genuine, AllGenuine;
    var whole := data + f.frame.encode(RecordOf(s));
    var ss := CleanRecords(f, data, events);
    assert ss != [] ==> EventsOf(ss)[|ss| - 1] == ss[|ss| - 1].event;
    EncodeAllSnoc(f, ss, s);
    assert whole[..|whole|] == whole;
    ScanInvertsEncoding(f, whole, |whole|, ss + [s]);
    assert EventsOf(ss + [s]) == events + [s.event];
  }

  /** A clean file followed by bytes that do not start a record of this format is corrupt. */
  lemma JunkAfterClean<P>(f: Format<P>, data: bytes, events: seq<Event<string, P>>, junk: bytes)
    requires Sound(f.frame) && Clean(f, data, events)
    requires junk != [] && f.frame.decode(data + junk, |data|) == UnsupportedVersion
    ensures ScanFrom(f, data + junk, 0, None) == Corrupt(WrongVersion, |data|)
  {
    var ss := CleanRecords(f, data, events);
    assert (data + junk)[0..|data|] == data;
    ScanPasses(f, data + junk, 0, |data|, ss, None, Corrupt(WrongVersion, |data|));
  }

  /**
   A crash while one record is being written to a clean file leaves the old events and a
   torn tail, or no tail at all; once every byte is down, the new event is there.
   */
  lemma CutRecord<P>(f: Format<P>, data: bytes, events: seq<Event<string, P>>, s: Stored<P>, k: nat)
    requires Sound(f.frame) && Clean(f, data, events) && Genuine(f, s)
    requires events != [] ==> events[|events| - 1].id < s.event.id
    requires k <= |f.frame.encode(RecordOf(s))|
    ensures var enc := f.frame.encode(RecordOf(s));
            var scan := ScanFrom(f, data + enc[..k], 0, None);
      && (k < |enc| ==> scan.Accepted? && EventsOf(scan.records) == events
                        && scan.stop == |data| && (scan.torn <==> 0 < k))
      && (k == |enc| ==> Clean(f, data + enc, events + [s.event]))
  {
    if k < |f.frame.encode(RecordOf(s))| {
      CutShort(f, data, events, s, k);
    } else {
      CutWhole(f, data, events, s);
    }
  }
}
