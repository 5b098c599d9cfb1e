/** Whole histories of the event store: appends, failed appends, crashes and restarts. */
module StoreRuns {
  import opened Wrappers
  import opened Codec
  import opened EventLog
  import opened LogFile
  import opened StoreModel

  datatype Step<P> =
    | Call(key: Option<string>, payload: P, os: Os)
    | Restart
    | CrashWriting(key: Option<string>, payload: P, bytesDown: nat)

  predicate Skips<P>(f: Format<P>, s: Store<P>, key: Option<string>, payload: P) {
    (key.Some? && key.value in s.index) || !Encodable(RecordOf(NewRecord(f, s, key, payload)))
  }

  /** The store after a step; None when its file can no longer be opened. */
  function Do<P>(f: Format<P>, s: Store<P>, step: Step<P>): Option<Store<P>>
    requires Coherent(s)
  {
    match step
    case Call(key, payload, os) => Some(Append(f, s, key, payload, os).0)
    case Restart => Open(f, s.file)
    case CrashWriting(key, payload, k) =>
      if Skips(f, s, key, payload) then Open(f, s.file)
      else
        var enc := f.frame.encode(RecordOf(NewRecord(f, s, key, payload)));
        Open(f, s.file + enc[..if k < |enc| then k else |enc|])
  }

  lemma DoIsCoherent<P>(f: Format<P>, s: Store<P>, step: Step<P>)
    requires Coherent(s)
    ensures Do(f, s, step).Some? ==> Coherent(Do(f, s, step).value)
  {
    if step.Call? {
      AppendRefinesLog(f, s, step.key, step.payload, step.os);
    }
  }

  ghost function Run<P>(f: Format<P>, s: Store<P>, steps: seq<Step<P>>): Option<Store<P>>
    requires Coherent(s)
    decreases |steps|
  {
    if steps == [] then Some(s)
    else
      var next := Do(f, s, steps[0]);
      if next.None? then None
      else
        DoIsCoherent(f, s, steps[0]);
        Run(f, next.value, steps[1..])
  }

  /** Every append that fails in the run starts with the cursor at the end of the file. */
  ghost predicate FailuresAtEnd<P>(f: Format<P>, s: Store<P>, steps: seq<Step<P>>)
    requires Coherent(s)
    decreases |steps|
  {
    steps == [] ||
    var step := steps[0];
    && (step.Call? && Append(f, s, step.key, step.payload, step.os).1.WriteFailed? ==> s.cursor == |s.file|)
    && (var next := Do(f, s, step);
        next.Some? ==> (DoIsCoherent(f, s, step); FailuresAtEnd(f, next.value, steps[1..])))
  }

  ghost predicate Sane<P>(f: Format<P>, s: Store<P>) {
    Coherent(s) && OnDisk(f, s) && Ordered(s.events)
  }

  lemma CrashKeepsSane<P(!new)>(f: Format<P>, s: Store<P>, key: Option<string>, payload: P, k: nat)
    requires GoodFormat(f) && Sane(f, s) && !Skips(f, s, key, payload)
    requires k <= |f.frame.encode(RecordOf(NewRecord(f, s, key, payload)))|
    ensures var after := Open(f, s.file + f.frame.encode(RecordOf(NewRecord(f, s, key, payload)))[..k]);
            after.Some? && Sane(f, after.value) && s.events <= after.value.events
            && (after.value.events == s.events || after.value.events == EventLog.Appended(s.events, key, payload))
  {
    var rec := NewRecord(f, s, key, payload);
    var enc := f.frame.encode(RecordOf(rec));
    NewRecordIsGenuine(f, s, key, payload);
    CutRecord(f, s.file, s.events, rec, k);
    if k < |enc| {
      var cut := s.file + enc[..k];
      assert cut[..|s.file|] == s.file;
      assert k == 0 ==> cut == s.file;
      assert Open(f, cut) == Some(Loaded(s.file, s.events));
    } else {
      assert enc[..k] == enc;
      if key.Some? {
        Indexed(s.events, key.value);
      }
      AppendedKeepsOrder(s.events, key, payload);
      assert Open(f, s.file + enc) == Some(Loaded(s.file + enc, s.events + [rec.event]));
    }
  }

  lemma DoKeepsSane<P(!new)>(f: Format<P>, s: Store<P>, step: Step<P>)
    requires GoodFormat(f) && Sane(f, s)
    requires step.Call? && Append(f, s, step.key, step.payload, step.os).1.WriteFailed? ==> s.cursor == |s.file|
    ensures Do(f, s, step).Some? && Sane(f, Do(f, s, step).value)
    ensures s.events <= Do(f, s, step).value.events
    ensures Do(f, s, step).value.events == s.events
            || (!step.Restart? && Do(f, s, step).value.events == EventLog.Appended(s.events, step.key, step.payload))
  {
    match step
    case Call(key, payload, os) =>
      AppendRefinesLog(f, s, key, payload, os);
      AppendKeepsDisk(f, s, key, payload, os);
      AppendedKeepsOrder(s.events, key, payload);
    case Restart =>
      ReopenAgrees(f, s);
    case CrashWriting(key, payload, k) =>
      if Skips(f, s, key, payload) {
        ReopenAgrees(f, s);
      } else {
        var n := |f.frame.encode(RecordOf(NewRecord(f, s, key, payload)))|;
        CrashKeepsSane(f, s, key, payload, if k < n then k else n);
      }
  }

  /**
   Over any run whose failed appends start at the end of the file, with any number of
   crashes in the middle of a record: the file can be opened, what it opens to is the
   live memory, no event is lost, ids ascend and no key is stored twice.
   */
  lemma {:induction false} RunIsSane<P(!new)>(f: Format<P>, s: Store<P>, steps: seq<Step<P>>)
    requires GoodFormat(f) && Sane(f, s) && FailuresAtEnd(f, s, steps)
    ensures var end := Run(f, s, steps);
      && end.Some? && Sane(f, end.value)
      && s.events <= end.value.events
      && Open(f, end.value.file) == Some(end.value.(cursor := |end.value.file|))
    decreases |steps|
  {
    if steps == [] {
      ReopenAgrees(f, s);
    } else {
      DoKeepsSane(f, s, steps[0]);
      RunIsSane(f, Do(f, s, steps[0]).value, steps[1..]);
    }
  }

  lemma EmptyFileIsSane<P>(f: Format<P>)
    ensures Open(f, []) == Some(Loaded<P>([], [])) && Sane(f, Loaded([], []))
  {
  }

  /** Over any such run the ids go on counting from one without a gap, whatever failed or was cut in between. */
  lemma {:induction false} RunIsNumbered<P(!new)>(f: Format<P>, s: Store<P>, steps: seq<Step<P>>)
    requires GoodFormat(f) && Sane(f, s) && FailuresAtEnd(f, s, steps) && Numbered(s.events)
    ensures Run(f, s, steps).Some? && Numbered(Run(f, s, steps).value.events)
    decreases |steps|
  {
    if steps != [] {
      DoKeepsSane(f, s, steps[0]);
      if !steps[0].Restart? {
        AppendedNumbers(s.events, steps[0].key, steps[0].payload);
      }
      RunIsNumbered(f, Do(f, s, steps[0]).value, steps[1..]);
    }
  }

  /** From the first opening of an empty file on. */
  lemma RunFromEmptyFile<P(!new)>(f: Format<P>, steps: seq<Step<P>>)
    requires GoodFormat(f) && FailuresAtEnd(f, Loaded([], []), steps)
    ensures Open(f, []) == Some(Loaded<P>([], []))
    ensures var end := Run(f, Loaded([], []), steps);
      && end.Some? && Sane(f, end.value) && Open(f, end.value.file) == Some(end.value.(cursor := |end.value.file|))
      && Numbered(end.value.events)
  {
    EmptyFileIsSane(f);
    RunIsSane(f, Loaded([], []), steps);
    RunIsNumbered(f, Loaded([], []), steps);
  }

  /** Fails after four bytes. */
  const StopsAfterFour: Os := Os([4], true)

  lemma FourBytesDown<P>(f: Format<P>, s: Store<P>, payload: P, four: bytes)
    requires Coherent(s) && Encodable(RecordOf(NewRecord(f, s, None, payload))) && |four| == 4
    requires var enc := f.frame.encode(RecordOf(NewRecord(f, s, None, payload))); |enc| > 4 && enc[..4] == four
    ensures Append(f, s, None, payload, StopsAfterFour)
         == (s.(file := Truncate(s.file + four, s.cursor), cursor := |s.file| + 4), WriteFailed)
  {
    var n := |f.frame.encode(RecordOf(NewRecord(f, s, None, payload)))|;
    assert Written(n, [4]) == (4, false) by {
      assert Written(n - 4, []) == (0, false);
      assert [4][1..] == [];
    }
  }

  /** Two four-byte failures leave the first four bytes of the record behind. */
  lemma TwoFailuresLeaveFour<P>(f: Format<P>, s: Store<P>, payload: P, four: bytes)
    requires Coherent(s) && Encodable(RecordOf(NewRecord(f, s, None, payload))) && |four| == 4
    requires var enc := f.frame.encode(RecordOf(NewRecord(f, s, None, payload))); |enc| > 4 && enc[..4] == four
    requires s.cursor == |s.file|
    ensures var s1 := Append(f, s, None, payload, StopsAfterFour).0;
            && Coherent(s1)
            && Append(f, s1, None, payload, StopsAfterFour).0 == s.(file := s.file + four, cursor := |s.file| + 4)
  {
    FourBytesDown(f, s, payload, four);
    var s1 := Append(f, s, None, payload, StopsAfterFour).0;
    assert (s.file + four)[..|s.file|] == s.file;
    FourBytesDown(f, s1, payload, four);
    assert |s.file + four| == |s.file| + 4;
  }

  lemma ThirdAppendIsLost<P>(f: Format<P>, s: Store<P>, payload: P, four: bytes, os: Os)
    requires Sound(f.frame) && Coherent(s) && OnDisk(f, s) && s.cursor == |s.file| && |four| == 4
    requires Append(f, s, None, payload, os).1.Appended?
    requires var enc := f.frame.encode(RecordOf(NewRecord(f, s, None, payload)));
             |enc| > 4 && enc[..4] == four && f.frame.decode(s.file + (four + enc), |s.file|) == UnsupportedVersion
    ensures Broken(f, s, payload, os)
  {
    TwoFailuresLeaveFour(f, s, payload, four);
    var enc := f.frame.encode(RecordOf(NewRecord(f, s, None, payload)));
    assert s.file + four + enc == s.file + (four + enc);
    JunkAfterClean(f, s.file, s.events, four + enc);
  }

  lemma VersionByte(hash: Digest, before: bytes, r: Record)
    requires GoodDigest(hash) && Encodable(r)
    ensures var enc := Framed(hash).encode(r);
            |enc| > 4 && enc[..4] == MAGIC && Framed(hash).decode(before + (MAGIC + enc), |before|) == UnsupportedVersion
  {
    var enc := EncodeRecord(hash, r);
    assert enc[..4] == MAGIC && enc[0] == 0x54;
    var data := before + (MAGIC + enc);
    assert data[|before|..|before| + 4] == MAGIC && data[|before| + 4] == enc[0];
  }

  /** Fail, fail, succeed: the acknowledged event is in memory and the file cannot be opened. */
  ghost predicate Broken<P>(f: Format<P>, s: Store<P>, payload: P, os: Os)
    requires Coherent(s)
  {
    var s1 := Append(f, s, None, payload, StopsAfterFour).0;
    Coherent(s1) &&
    var s2 := Append(f, s1, None, payload, StopsAfterFour).0;
    Coherent(s2) &&
    var (s3, out) := Append(f, s2, None, payload, os);
    out.Appended? && out.event in s3.events && Open(f, s3.file) == None
  }

  /** The two failures alone do no harm: the file opens, with the events from before them. */
  lemma TwoFailuresStillOpen<P(!new)>(hash: Digest, f: Format<P>, s: Store<P>, payload: P)
    requires GoodDigest(hash) && f.frame == Framed(hash) && GoodFormat(f) && Sane(f, s) && s.cursor == |s.file|
    requires Encodable(RecordOf(NewRecord(f, s, None, payload)))
    ensures var s1 := Append(f, s, None, payload, StopsAfterFour).0;
      Coherent(s1) && Open(f, Append(f, s1, None, payload, StopsAfterFour).0.file) == Some(Loaded(s.file, s.events))
  {
    var rec := NewRecord(f, s, None, payload);
    VersionByte(hash, s.file, RecordOf(rec));
    TwoFailuresLeaveFour(f, s, payload, MAGIC);
    NewRecordIsGenuine(f, s, None, payload);
    CutRecord(f, s.file, s.events, rec, 4);
    assert (s.file + MAGIC)[..|s.file|] == s.file;
  }

  /**
   Why the cursor matters: two appends in a row that fail after four bytes, then one that
   succeeds and is acknowledged, leave a file that cannot be opened any more.
   */
  lemma TwoFailuresBreakTheFile<P>(hash: Digest, f: Format<P>, s: Store<P>, payload: P, os: Os)
    requires GoodDigest(hash) && f.frame == Framed(hash)
    requires Coherent(s) && OnDisk(f, s) && s.cursor == |s.file|
    requires Append(f, s, None, payload, os).1.Appended?
    ensures Broken(f, s, payload, os)
  {
    FramingIsSound(hash);
    VersionByte(hash, s.file, RecordOf(NewRecord(f, s, None, payload)));
    ThirdAppendIsLost(f, s, payload, MAGIC, os);
  }
}
