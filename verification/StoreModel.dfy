/**
 The event store as a value: the file, the descriptor's cursor and the in-memory index,
 what one append does to them, and what holds over whole runs with crashes.
 */
module StoreModel {
  import opened Wrappers
  import opened Codec
  import opened EventLog
  import opened LogFile

  datatype Store<P> = Store(
    file: bytes,
    cursor: nat,
    events: seq<Event<string, P>>,
    byId: map<nat, Event<string, P>>,
    index: map<string, nat>,
    nextId: nat)

  // ---- the in-memory index, built in file order so that the last entry for a key wins ----

  function ById<P>(events: seq<Event<string, P>>): map<nat, Event<string, P>> {
    if events == [] then map[]
    else
      var e := events[|events| - 1];
      ById(events[..|events| - 1])[e.id := e]
  }

  function KeyIndex<P>(events: seq<Event<string, P>>): map<string, nat> {
    if events == [] then map[]
    else
      var e := events[|events| - 1];
      var m := KeyIndex(events[..|events| - 1]);
      if e.key.Some? then m[e.key.value := e.id] else m
  }

  /** A key is indexed when some event carries it, and the index then names an event's id. */
  lemma {:induction false} Indexed<P>(events: seq<Event<string, P>>, key: string)
    ensures key in KeyIndex(events) <==> HasKey(events, key)
    ensures key in KeyIndex(events) ==> KeyIndex(events)[key] in ById(events)
    ensures key in KeyIndex(events) && Ordered(events) ==> KeyIndex(events)[key] < NextId(events)
  {
    if events != [] {
      Indexed(events[..|events| - 1], key);
    }
  }

  /** Memory agrees with the list of events. */
  ghost predicate Coherent<P>(s: Store<P>) {
    s.byId == ById(s.events) && s.index == KeyIndex(s.events) && s.nextId == NextId(s.events)
  }

  /** The file holds exactly the events in memory. */
  ghost predicate OnDisk<P>(f: Format<P>, s: Store<P>) {
    Clean(f, s.file, s.events)
  }

  function Loaded<P>(file: bytes, events: seq<Event<string, P>>): Store<P> {
    Store(file, |file|, events, ById(events), KeyIndex(events), NextId(events))
  }

  /** Opening a file: refused when corrupt, otherwise cut back to the last intact record. */
  function Open<P>(f: Format<P>, file: bytes): Option<Store<P>> {
    var scan := ScanFrom(f, file, 0, None);
    if scan.Corrupt? || scan.stop > |file| then None
    else Some(Loaded(if scan.torn then file[..scan.stop] else file, EventsOf(scan.records)))
  }

  // ---- one append ----

  /** What the operating system does: the counts successive writes report, and the final sync. */
  datatype Os = Os(writes: seq<int>, syncs: bool)

  /** Bytes that reach the file when n are to be written, and whether all of them did. */
  function Written(n: nat, writes: seq<int>): (r: (nat, bool))
    ensures r.0 <= n && (r.1 <==> r.0 == n)
    decreases |writes|
  {
    if n == 0 then (0, true)
    else if writes == [] || writes[0] <= 0 then (0, false)
    else if writes[0] >= n then (n, true)
    else
      var rest := Written(n - writes[0], writes[1..]);
      (writes[0] + rest.0, rest.1)
  }

  function Zeros(n: nat): (s: bytes)
    ensures |s| == n
  {
    seq(n, i => 0)
  }

  function Truncate(data: bytes, n: nat): (r: bytes)
    ensures |r| == n
  {
    if n <= |data| then data[..n] else data + Zeros(n - |data|)
  }

  datatype Outcome<+P> = Appended(event: Event<string, P>) | Present(event: Event<string, P>) | WriteFailed | TooLarge

  function NewRecord<P>(f: Format<P>, s: Store<P>, key: Option<string>, payload: P): Stored<P> {
    Stored(Event(s.nextId, key, payload), f.ser(Envelope(key, payload)))
  }

  /**
   Writes go to the end of the file whatever the cursor says, and move the cursor to where
   they ended.  A failed append cuts the file at the cursor the append started with.
   */
  function Append<P>(f: Format<P>, s: Store<P>, key: Option<string>, payload: P, os: Os)
    : (r: (Store<P>, Outcome<P>))
    requires Coherent(s)
  {
    if key.Some? && key.value in s.index then
      Indexed(s.events, key.value);
      (s, Present(s.byId[s.index[key.value]]))
    else
      var rec := NewRecord(f, s, key, payload);
      if !Encodable(RecordOf(rec)) then (s, TooLarge)
      else
        var enc := f.frame.encode(RecordOf(rec));
        var w := Written(|enc|, os.writes);
        var cursor := if w.0 > 0 then |s.file| + w.0 else s.cursor;
        if w.1 && os.syncs then
          (Store(s.file + enc, cursor, s.events + [rec.event], s.byId[s.nextId := rec.event],
                 if key.Some? then s.index[key.value := s.nextId] else s.index, s.nextId + 1),
           Appended(rec.event))
        else
          (s.(file := Truncate(s.file + enc[..w.0], s.cursor), cursor := cursor), WriteFailed)
  }

  lemma NewRecordIsGenuine<P(!new)>(f: Format<P>, s: Store<P>, key: Option<string>, payload: P)
    requires GoodFormat(f) && Encodable(RecordOf(NewRecord(f, s, key, payload)))
    ensures Genuine(f, NewRecord(f, s, key, payload))
  {
  }

  /** In an ordered log the two-step lookup through the index finds the event under the key. */
  lemma {:induction false} LookupFinds<P>(events: seq<Event<string, P>>, key: string)
    requires Ordered(events) && HasKey(events, key)
    ensures key in KeyIndex(events) && KeyIndex(events)[key] in ById(events)
    ensures Find(events, key) == Some(ById(events)[KeyIndex(events)[key]])
  {
    var front, last := events[..|events| - 1], events[|events| - 1];
    Indexed(events, key);
    if last.key != Some(key) {
      LookupFinds(front, key);
      Indexed(front, key);
    }
  }

  /** Memory stays coherent, and its events change as an append to the abstract log says. */
  lemma AppendRefinesLog<P>(f: Format<P>, s: Store<P>, key: Option<string>, payload: P, os: Os)
    requires Coherent(s)
    ensures var (s', out) := Append(f, s, key, payload, os);
      && Coherent(s')
      && (out.Present? || out.Appended? ==> s'.events == EventLog.Appended(s.events, key, payload))
      && (out.WriteFailed? || out.TooLarge? ==> s'.events == s.events)
      && (out.Appended? ==> out.event == Event(NextId(s.events), key, payload))
      && (out.Present? ==> key.Some? && s' == s)
      && (out.Present? && Ordered(s.events) ==> Find(s.events, key.value) == Some(out.event))
  {
    var (s', out) := Append(f, s, key, payload, os);
    if key.Some? {
      Indexed(s.events, key.value);
      if Ordered(s.events) && HasKey(s.events, key.value) {
        LookupFinds(s.events, key.value);
      }
    }
    if out.Appended? {
      assert s'.events[..|s.events|] == s.events;
    }
  }

  /**
   A failed append leaves the file as it was exactly when the cursor stood at its end.
   The cursor is all a caller has to look at.
   */
  lemma RollbackExact<P>(f: Format<P>, s: Store<P>, key: Option<string>, payload: P, os: Os)
    requires Coherent(s)
    requires Append(f, s, key, payload, os).1.WriteFailed?
    ensures Append(f, s, key, payload, os).0.file == s.file <==> s.cursor == |s.file|
  {
    var enc := f.frame.encode(RecordOf(NewRecord(f, s, key, payload)));
    var w := Written(|enc|, os.writes);
    assert (s.file + enc[..w.0])[..|s.file|] == s.file;
  }

  /** An append from a cursor at the end of a clean file, or a successful one, leaves it clean. */
  lemma AppendKeepsDisk<P(!new)>(f: Format<P>, s: Store<P>, key: Option<string>, payload: P, os: Os)
    requires GoodFormat(f) && Coherent(s) && OnDisk(f, s)
    requires Append(f, s, key, payload, os).1.WriteFailed? ==> s.cursor == |s.file|
    ensures OnDisk(f, Append(f, s, key, payload, os).0)
    ensures Append(f, s, key, payload, os).1.Appended? ==>
              Append(f, s, key, payload, os).0.cursor == |Append(f, s, key, payload, os).0.file|
  {
    var (s', out) := Append(f, s, key, payload, os);
    if out.Appended? {
      var rec := NewRecord(f, s, key, payload);
      var enc := f.frame.encode(RecordOf(rec));
      NewRecordIsGenuine(f, s, key, payload);
      CutRecord(f, s.file, s.events, rec, |enc|);
    } else if out.WriteFailed? {
      RollbackExact(f, s, key, payload, os);
    }
  }

  /** Opening the file of a coherent store afresh computes the store's own memory. */
  lemma ReopenAgrees<P>(f: Format<P>, s: Store<P>)
    requires Coherent(s) && OnDisk(f, s)
    ensures Open(f, s.file) == Some(s.(cursor := |s.file|))
  {
  }

  /**
   Crash atomicity and exactly-once.  Cut the write of a new record after any k bytes and
   reopen: the old events, or all of them once the last byte is down.  Retrying the append
   then leaves the log with the new event once.
   */
  lemma CrashThenRetry<P(!new)>(f: Format<P>, s: Store<P>, key: string, payload: P, k: nat, os: Os)
    requires GoodFormat(f) && Coherent(s) && OnDisk(f, s)
    requires key !in s.index && Encodable(RecordOf(NewRecord(f, s, Some(key), payload)))
    requires k <= |f.frame.encode(RecordOf(NewRecord(f, s, Some(key), payload)))|
    ensures var rec := NewRecord(f, s, Some(key), payload);
            var enc := f.frame.encode(RecordOf(rec));
            var reopened := Open(f, s.file + enc[..k]);
      && reopened.Some? && Coherent(reopened.value) && OnDisk(f, reopened.value)
      && (k < |enc| ==> reopened.value.events == s.events && reopened.value.file == s.file)
      && (k == |enc| ==> reopened.value.events == s.events + [rec.event] && reopened.value.file == s.file + enc)
      && (var (again, out) := Append(f, reopened.value, Some(key), payload, os);
          && (k == |enc| ==> out.Present?)
          && (out.Present? || out.Appended? ==> again.events == s.events + [rec.event] && again.file == s.file + enc))
  {
    var rec := NewRecord(f, s, Some(key), payload);
    var enc := f.frame.encode(RecordOf(rec));
    Indexed(s.events, key);
    NewRecordIsGenuine(f, s, Some(key), payload);
    CutRecord(f, s.file, s.events, rec, k);
    var cut := s.file + enc[..k];
    if k < |enc| {
      assert cut[..|s.file|] == s.file;
      assert k == 0 ==> cut == s.file;
      assert Open(f, cut) == Some(Loaded(s.file, s.events));
      AppendRefinesLog(f, Loaded(s.file, s.events), Some(key), payload, os);
    } else {
      assert enc[..k] == enc;
      var after := s.events + [rec.event];
      assert Open(f, cut) == Some(Loaded(s.file + enc, after));
      assert after[..|s.events|] == s.events;
      Indexed(after, key);
    }
  }
}
