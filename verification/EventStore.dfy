/** The event store object: it owns the file and keeps its index in step with it. */
module EventStore {
  import opened Wrappers
  import opened Codec
  import opened EventLog
  import opened LogFile
  import opened StoreModel

  class EventStore<P> {
    const format: Format<P>
    var file: bytes
    var cursor: nat
    var events: seq<Event<string, P>>
    var byId: map<nat, Event<string, P>>
    var index: map<string, nat>
    var nextId: nat

    ghost function State(): Store<P>
      reads this
    {
      Store(file, cursor, events, byId, index, nextId)
    }

    constructor Over(format: Format<P>, s: Store<P>)
      ensures this.format == format && State() == s
    {
      this.format := format;
      file, cursor, events := s.file, s.cursor, s.events;
      byId, index, nextId := s.byId, s.index, s.nextId;
    }

    /** Opens a log file; null when the file is refused as corrupt. */
    static method OpenFile(format: Format<P>, data: bytes) returns (store: EventStore?<P>)
      ensures store == null <==> Open(format, data).None?
      ensures store != null ==> fresh(store) && store.format == format
                                && store.State() == Open(format, data).value && Coherent(store.State())
    {
      var scan := ScanFile(format, data);
      if scan.Corrupt? || scan.stop > |data| { return null; }
      var events := EventsOf(scan.records);
      var kept := if scan.torn then data[..scan.stop] else data;
      store := new EventStore<P>.Over(format, Loaded(kept, events));
    }

    /** Writes every byte, looping over short writes; stops at the first write without progress. */
    method WriteFull(data: bytes, writes: seq<int>) returns (ok: bool)
      modifies this`file, this`cursor
      ensures ok == Written(|data|, writes).1
      ensures file == old(file) + data[..Written(|data|, writes).0]
      ensures cursor == if Written(|data|, writes).0 > 0 then |old(file)| + Written(|data|, writes).0 else old(cursor)
    {
      var total: nat, i: nat := 0, 0;
      while total < |data|
        invariant total <= |data| && i <= |writes|
        invariant file == old(file) + data[..total]
        invariant cursor == if total > 0 then |old(file)| + total else old(cursor)
        invariant Written(|data|, writes).0 == total + Written(|data| - total, writes[i..]).0
        invariant Written(|data|, writes).1 == Written(|data| - total, writes[i..]).1
        decreases |writes| - i
      {
        if i == |writes| || writes[i] <= 0 { return false; }
        var written := if writes[i] >= |data| - total then |data| - total else writes[i];
        assert writes[i..][0] == writes[i] && writes[i..][1..] == writes[i + 1..];
        assert data[..total + written] == data[..total] + data[total..total + written];
        file := file + data[total..total + written];
        cursor := |file|;
        total := total + written;
        i := i + 1;
      }
      ok := true;
    }

    /** Appends one event, or returns the one already stored under its key. */
    method AppendEvent(key: Option<string>, payload: P, os: Os) returns (out: Outcome<P>)
      requires Coherent(State())
      modifies this
      ensures (State(), out) == Append(format, old(State()), key, payload, os)
      ensures Coherent(State())
    {
      ghost var before := State();
      out := AppendNew(key, payload, os);
      AppendRefinesLog(format, before, key, payload, os);
    }

    method AppendNew(key: Option<string>, payload: P, os: Os) returns (out: Outcome<P>)
      requires Coherent(State())
      modifies this
      ensures (State(), out) == Append(format, old(State()), key, payload, os)
    {
      if key.Some? && key.value in index {
        Indexed(events, key.value);
        return Present(byId[index[key.value]]);
      }
      var event := Event(nextId, key, payload);
      var rec := Stored(event, format.ser(Envelope(key, payload)));
      if !Encodable(RecordOf(rec)) { return TooLarge; }
      var start, encoded := cursor, format.frame.encode(RecordOf(rec));
      var written := WriteFull(encoded, os.writes);
      assert encoded[..|encoded|] == encoded;
      if !(written && os.syncs) {
        file := Truncate(file, start);
        return WriteFailed;
      }
      events := events + [event];
      byId := byId[nextId := event];
      if key.Some? {
        index := index[key.value := nextId];
      }
      nextId := nextId + 1;
      out := Appended(event);
    }

    /** The event under a key, if any. */
    method GetByKey(key: string) returns (r: Option<Event<string, P>>)
      requires Coherent(State()) && Ordered(events)
      ensures r == Find(events, key)
    {
      Indexed(events, key);
      if key in index {
        LookupFinds(events, key);
        r := Some(byId[index[key]]);
      } else {
        r := None;
      }
    }

    /** The events from an id on, in order. */
    method Replay(fromId: nat) returns (r: seq<Event<string, P>>)
      requires Ordered(events)
      ensures exists n :: 0 <= n <= |events| && r == events[n..]
                && (forall i :: 0 <= i < n ==> events[i].id < fromId)
                && (forall i :: n <= i < |events| ==> fromId <= events[i].id)
    {
      r := [];
      var i := 0;
      ghost var n := 0;
      while i < |events|
        invariant n <= i <= |events|
        invariant r == events[n..i]
        invariant forall j :: 0 <= j < n ==> events[j].id < fromId
        invariant forall j :: n <= j < i ==> fromId <= events[j].id
      {
        if events[i].id >= fromId {
          r := r + [events[i]];
        } else {
          if n < i {
            OrderedPairs(events, n, i);
          }
          n := i + 1;
        }
        i := i + 1;
      }
      assert events[n..i] == events[n..];
    }
  }
}
