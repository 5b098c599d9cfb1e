/**
 A fill booked without a complaint is settled for good, and so a whole pass over the fills
 can be cut short and started over.
 */
module SyncHealing {
  import opened Wrappers
  import opened EventLog
  import opened Records
  import opened Accounting
  import opened AccountingRuns
  import opened AccountingHealing
  import opened ExitHealing
  import opened CrashHealing
  import opened EngineRuns
  import opened FillTrail
  import opened Sums
  import OS = OrderStates
  import PS = PositionStates
  import O = Orders
  import OH = OrderHistory
  import OR = OrderRuns
  import P = Positions
  import PH = PositionHistory
  import L = Portfolio

  /** Nothing was skipped and nothing failed; a close still waiting for fills is no complaint. */
  predicate Clean(notes: seq<Note>) {
    forall i :: 0 <= i < |notes| ==> notes[i].Note? && notes[i].kind == PartialClose
  }

  lemma ComplaintIsNotClean(n: Note)
    requires n.FetchFailed? || n.kind != PartialClose
    ensures !Clean([n])
  {
    assert [n][0] == n;
  }

  // ---- entry fills ----

  predicate MarginOnLog(d: Desk, pid: string, f: Fill) {
    && Margin(d, f) > 0.0
    && HasKey(d.log, ForPortfolio(ReserveKey(pid, f.id)))
    && HasKey(d.log, ForPortfolio(AllocateKey(pid, f.id)))
    && (f.fee > 0.0 ==> HasKey(d.log, ForPortfolio(FeeKey(pid, f.id))))
  }

  /** The position has the fill, and unless it is dead by now the ledger has its margin and fee. */
  predicate SettledEntry(d: Desk, f: Fill) {
    Lookup(d.mapped, f.cid).Some? &&
    var pid := Lookup(d.mapped, f.cid).value;
    && pid in d.positions.snapshots && f.id in P.ProcessedOf(d.positions, pid)
    && (Dead(d.positions.snapshots[pid].state) || MarginOnLog(d, pid, f))
  }

  lemma SettledEntryBooksNothing(d: Desk, f: Fill, intended: real)
    requires SettledEntry(d, f)
    ensures BookEntry(d, f, intended).0 == d
  {
    var pid := Lookup(d.mapped, f.cid).value;
    TakenFillBooksMargin(d, pid, f);
    if !Dead(d.positions.snapshots[pid].state) {
      AskAgain(d, L.Reserve(pid, Margin(d, f), f.id));
      AskAgain(d, L.Allocate(pid, Margin(d, f), f.id));
      if f.fee > 0.0 {
        AskAgain(d, L.BookFee(pid, f.id, f.fee));
      }
    }
  }

  lemma CleanMarginIsDone(d: Desk, pid: string, f: Fill)
    requires Clean(BookMargin(d, pid, f).1)
    ensures Ask(d, L.Reserve(pid, Margin(d, f), f.id)).1.Done?
    ensures Ask(Ask(d, L.Reserve(pid, Margin(d, f), f.id)).0, L.Allocate(pid, Margin(d, f), f.id)).1.Done?
    ensures BookMargin(d, pid, f).0 == BookFee(TakeMargin(d, pid, f).0, pid, f)
  {
    ComplaintIsNotClean(Note(f.id, Raised));
    ComplaintIsNotClean(Note(f.id, MarginFailed));
  }

  lemma CleanMarginIsOnLog(d: Desk, pid: string, f: Fill)
    requires Sound(d) && Clean(BookMargin(d, pid, f).1)
    ensures MarginOnLog(BookMargin(d, pid, f).0, pid, f)
  {
    var reserve, allocate := L.Reserve(pid, Margin(d, f), f.id), L.Allocate(pid, Margin(d, f), f.id);
    var d1, d2 := Ask(d, reserve).0, TakeMargin(d, pid, f).0;
    var d3 := BookFee(d2, pid, f);
    CleanMarginIsDone(d, pid, f);
    MarginSteps(d, pid, f);
    hide Ask, Margin, Sound, LogSound, BookMargin, Clean;
    SameMargin(d, d3, f);
    DoneIsOnLog(d, reserve);
    DoneIsOnLog(d1, allocate);
    KeyStays(d1.log, d2.log, ForPortfolio(ReserveKey(pid, f.id)));
    KeyStays(d2.log, d3.log, ForPortfolio(ReserveKey(pid, f.id)));
    KeyStays(d2.log, d3.log, ForPortfolio(AllocateKey(pid, f.id)));
    if f.fee > 0.0 {
      DoneIsOnLog(d2, L.BookFee(pid, f.id, f.fee));
    }
  }

  lemma CleanIntoSettles(d: Desk, pid: string, f: Fill)
    requires Sound(d) && Lookup(d.mapped, f.cid) == Some(pid) && Clean(BookInto(d, pid, f).1)
    ensures SettledEntry(BookInto(d, pid, f).0, f)
  {
    IntoFollows(d, pid, f);
    if Pending(d, pid, f) {
      PendingFillBooks(d, pid, f);
      EnterSteps(Touch(d, pid, f), pid, f);
      MarginFollows(Enter(Touch(d, pid, f), pid, f), pid, f);
      CleanMarginIsOnLog(Enter(Touch(d, pid, f), pid, f), pid, f);
    } else if pid in d.positions.snapshots && f.id in P.ProcessedOf(d.positions, pid) {
      TakenFillBooksMargin(d, pid, f);
      if !Dead(d.positions.snapshots[pid].state) {
        MarginFollows(d, pid, f);
        CleanMarginIsOnLog(d, pid, f);
      }
    } else {
      UntakenFillStops(d, pid, f);
      ComplaintIsNotClean(Note(f.id, Raised));
      assert false;
    }
  }

  lemma CleanEntrySettles(d: Desk, f: Fill, intended: real)
    requires Sound(d) && Clean(BookEntry(d, f, intended).1)
    ensures SettledEntry(BookEntry(d, f, intended).0, f)
  {
    if Lookup(d.mapped, f.cid).Some? {
      CleanIntoSettles(d, Lookup(d.mapped, f.cid).value, f);
    } else if Creates(d, f, intended) {
      CreationBooks(d, f, intended);
      CleanIntoSettles(MapOrder(Create(d, f, intended), f.cid, NewPid(d)), NewPid(d), f);
    } else {
      var n := BookEntry(d, f, intended).1[0];
      ComplaintIsNotClean(n);
      assert false;
    }
  }

  /** Positions, mapping and keys of an earlier desk, seen from a later one. */
  lemma LaterDesk(d: Desk, later: Desk, cid: string, pid: string)
    requires Sound(d) && Sound(later) && d.log <= later.log && d.pm == later.pm
    ensures PH.Onward(d.positions, later.positions, pid)
    ensures Lookup(d.mapped, cid).Some? ==> Lookup(later.mapped, cid) == Lookup(d.mapped, cid)
    ensures pid in d.positions.snapshots && Dead(d.positions.snapshots[pid].state) ==>
              pid in later.positions.snapshots && Dead(later.positions.snapshots[pid].state)
  {
    assert later.log[..|d.log|] == d.log;
    PH.HistoryIsOnward(d.pm, later.log, |d.log|, pid);
    if Lookup(d.mapped, cid).Some? {
      MappingStays(later.log, |d.log|, cid);
    }
  }

  lemma EntryStaysSettled(d: Desk, later: Desk, f: Fill)
    requires Sound(d) && Sound(later) && d.log <= later.log && d.pm == later.pm && d.leverage == later.leverage
    requires SettledEntry(d, f)
    ensures SettledEntry(later, f)
  {
    var pid := Lookup(d.mapped, f.cid).value;
    LaterDesk(d, later, f.cid, pid);
    if MarginOnLog(d, pid, f) {
      KeyStays(d.log, later.log, ForPortfolio(ReserveKey(pid, f.id)));
      KeyStays(d.log, later.log, ForPortfolio(AllocateKey(pid, f.id)));
      if f.fee > 0.0 {
        KeyStays(d.log, later.log, ForPortfolio(FeeKey(pid, f.id)));
      }
    }
  }

  // ---- exit fills ----

  predicate ReleaseOver(d: Desk, pid: string) {
    pid in d.ledger.released || HasKey(d.log, ForPortfolio(ReleaseKey(pid, "close:" + pid)))
  }

  /** The tranche's profit is booked, and with `c` closed so far there is nothing left to finish. */
  predicate SettledExit(d: Desk, f: Fill, c: real) {
    Lookup(d.mapped, f.cid).Some? &&
    var pid := Lookup(d.mapped, f.cid).value;
    && pid in d.positions.snapshots
    && d.positions.snapshots[pid].avg.Some? && HasKey(d.log, ForPortfolio(RealizedKey(pid, f.id)))
    && (|| Dead(d.positions.snapshots[pid].state)
        || c < d.positions.snapshots[pid].filled
        || (f.id in P.ProcessedOf(d.positions, pid) && ReleaseOver(d, pid)))
  }

  lemma SettledExitOnlyCounts(d: Desk, f: Fill)
    requires Lookup(d.mapped, f.cid).Some?
    requires var pid := Lookup(d.mapped, f.cid).value; SettledExit(d, f, At(Count(d, pid, f).closed, pid))
    ensures BookExit(d, f).0 == Count(d, Lookup(d.mapped, f.cid).value, f)
  {
    var pid := Lookup(d.mapped, f.cid).value;
    var s := d.positions.snapshots[pid];
    AskAgain(d, L.BookPnl(pid, f.id, Realized(s.terms.side, s.avg.value, f)));
    var x := Count(d, pid, f);
    assert Tranche(d, pid, f) == x;
    if !Dead(s.state) && At(x.closed, pid) >= s.filled {
      assert P.RecordExit(PositionWorld(x), pid, f, PS.Close, Reason) == (PositionWorld(x), P.Snap(s));
      assert WithPositions(x, PositionWorld(x)) == x;
    }
  }

  lemma {:induction false} ReleasedStays(log: Log, n: nat)
    requires n <= |log|
    ensures L.Replay(log[..n]).released <= L.Replay(log).released
    decreases |log|
  {
    if n == |log| {
      assert log[..n] == log;
    } else {
      assert log[..|log| - 1][..n] == log[..n];
      ReleasedStays(log[..|log| - 1], n);
    }
  }

  lemma ExitStaysSettled(d: Desk, later: Desk, f: Fill, c: real)
    requires Sound(d) && Sound(later) && d.log <= later.log && d.pm == later.pm && SettledExit(d, f, c)
    ensures SettledExit(later, f, c) && Lookup(later.mapped, f.cid) == Lookup(d.mapped, f.cid)
  {
    var pid := Lookup(d.mapped, f.cid).value;
    LaterDesk(d, later, f.cid, pid);
    KeyStays(d.log, later.log, ForPortfolio(RealizedKey(pid, f.id)));
    assert later.log[..|d.log|] == d.log;
    ReleasedStays(later.log, |d.log|);
    if HasKey(d.log, ForPortfolio(ReleaseKey(pid, "close:" + pid))) {
      KeyStays(d.log, later.log, ForPortfolio(ReleaseKey(pid, "close:" + pid)));
    }
  }

  // ---- a clean exit settles ----

  /** The accumulators count upwards from nothing. */
  ghost predicate Tallied(d: Desk) {
    forall pid :: At(d.closed, pid) >= 0.0
  }

  lemma CountTallies(d: Desk, pid: string, f: Fill)
    requires Tallied(d)
    ensures Tallied(Count(d, pid, f))
  {
    forall p
      ensures At(Count(d, pid, f).closed, p) >= 0.0
    {
      assert At(d.closed, p) >= 0.0 && At(d.closed, pid) >= 0.0;
    }
  }

  lemma PnlIsOnLog(d: Desk, pid: string, f: Fill)
    requires Sound(d) && pid in d.positions.snapshots && d.positions.snapshots[pid].avg.Some?
    ensures HasKey(Tranche(d, pid, f).log, ForPortfolio(RealizedKey(pid, f.id)))
  {
    var s := d.positions.snapshots[pid];
    DoneIsOnLog(d, L.BookPnl(pid, f.id, Realized(s.terms.side, s.avg.value, f)));
  }

  /** Releasing is over once it was asked for. */
  lemma ReleaseIsOver(d: Desk, pid: string)
    requires Sound(d)
    ensures ReleaseOver(Ask(d, L.Release(pid, "close:" + pid)).0, pid)
  {
    AskSteps(d, L.Release(pid, "close:" + pid));
  }

  lemma CleanFinishSettles(x: Desk, pid: string, f: Fill)
    requires Sound(x) && pid in x.positions.snapshots && !Dead(x.positions.snapshots[pid].state)
    requires Clean(Finish(x, pid, f).1)
    ensures var z := Finish(x, pid, f).0;
      && pid in z.positions.snapshots && z.positions.snapshots[pid].avg.Some? && z.mapped == x.mapped
      && (Dead(z.positions.snapshots[pid].state) || (f.id in P.ProcessedOf(z.positions, pid) && ReleaseOver(z, pid)))
  {
    var y := Closed(x, pid, f);
    if Closable(x, pid, f) {
      ClosePersists(x, pid, f);
      AskSteps(y, L.Release(pid, "close:" + pid));
    } else {
      CloseStands(x, pid, f);
      ComplaintIsNotClean(Note(f.id, Raised));
      PH.HistoryIsStarted(x.pm, x.log, pid);
      AskSteps(x, L.Release(pid, "close:" + pid));
      ReleaseIsOver(x, pid);
    }
  }

  lemma FinishKeepsCounts(x: Desk, pid: string, f: Fill)
    ensures Finish(x, pid, f).0.closed == x.closed && Finish(x, pid, f).0.counted == x.counted
  {
  }

  lemma PnlKeepsCounts(d: Desk, pid: string, s: P.Snapshot, f: Fill)
    ensures BookPnl(d, pid, s, f).closed == d.closed && BookPnl(d, pid, s, f).counted == d.counted
  {
  }

  lemma CloseCounts(d: Desk, pid: string, f: Fill)
    requires pid in d.positions.snapshots
    ensures CloseInto(d, pid, f).0.closed == Count(d, pid, f).closed
    ensures CloseInto(d, pid, f).0.counted == Count(d, pid, f).counted
  {
    PnlKeepsCounts(d, pid, d.positions.snapshots[pid], f);
    FinishKeepsCounts(Tranche(d, pid, f), pid, f);
    hide BookPnl, Finish, Realized;
  }

  lemma CleanTrancheSettles(d: Desk, pid: string, f: Fill)
    requires Sound(d) && Tallied(d) && Lookup(d.mapped, f.cid) == Some(pid)
    requires pid in d.positions.snapshots && !Completes(d, pid, f)
    ensures var end := Tranche(d, pid, f); SettledExit(end, f, At(end.closed, pid))
  {
    TrancheSteps(d, pid, f);
    PH.HistoryIsStarted(d.pm, d.log, pid);
    CountTallies(d, pid, f);
    assert At(Count(d, pid, f).closed, pid) >= 0.0;
    PnlIsOnLog(d, pid, f);
  }

  lemma CleanCompletionSettles(d: Desk, pid: string, f: Fill)
    requires Sound(d) && Lookup(d.mapped, f.cid) == Some(pid)
    requires Completes(d, pid, f) && Clean(Finish(Tranche(d, pid, f), pid, f).1)
    ensures var end := Finish(Tranche(d, pid, f), pid, f).0; SettledExit(end, f, At(end.closed, pid))
  {
    var x := Tranche(d, pid, f);
    TrancheSteps(d, pid, f);
    CleanFinishSettles(x, pid, f);
    FinishSteps(x, pid, f);
    CleanFinishHadAverage(x, pid, f);
    PnlIsOnLog(d, pid, f);
    FollowsOn(x, Closed(x, pid, f), Finish(x, pid, f).0);
    KeyStays(x.log, Finish(x, pid, f).0.log, ForPortfolio(RealizedKey(pid, f.id)));
  }

  lemma CleanFinishHadAverage(x: Desk, pid: string, f: Fill)
    requires Sound(x) && pid in x.positions.snapshots && !Dead(x.positions.snapshots[pid].state)
    requires Clean(Finish(x, pid, f).1)
    ensures x.positions.snapshots[pid].avg.Some?
  {
    if !Closable(x, pid, f) {
      CloseStands(x, pid, f);
      ComplaintIsNotClean(Note(f.id, Raised));
      PH.HistoryIsStarted(x.pm, x.log, pid);
    }
  }

  lemma CleanCloseSettles(d: Desk, pid: string, f: Fill)
    requires Sound(d) && Tallied(d) && Lookup(d.mapped, f.cid) == Some(pid)
    requires Clean(CloseInto(d, pid, f).1)
    ensures pid in d.positions.snapshots
    ensures var end := CloseInto(d, pid, f).0; SettledExit(end, f, At(end.closed, pid))
  {
    ComplaintIsNotClean(Note(f.id, Raised));
    if Completes(d, pid, f) {
      CleanCompletionSettles(d, pid, f);
    } else {
      CleanTrancheSettles(d, pid, f);
    }
  }

  /** The fill is the desk's for good: whatever later log it is booked on, it is only counted. */
  predicate Settled(d: Desk, f: Fill, terms: Terms) {
    if terms.reduceOnly then
      Lookup(d.mapped, f.cid).Some? && SettledExit(d, f, At(d.closed, Lookup(d.mapped, f.cid).value))
    else SettledEntry(d, f)
  }

  /** The accumulators after a fill: an exit is counted, once. */
  function Counts(d: Desk, f: Fill, terms: Terms, after: Desk): Desk {
    if terms.reduceOnly && Lookup(after.mapped, f.cid).Some? then Count(d, Lookup(after.mapped, f.cid).value, f) else d
  }

  /** An exit settled on `end`, counted once on top of the accumulators of `d`. */
  ghost predicate ExitDone(d: Desk, end: Desk, f: Fill) {
    && Lookup(end.mapped, f.cid).Some?
    && SettledExit(end, f, At(end.closed, Lookup(end.mapped, f.cid).value))
    && end == Recounted(end, Count(d, Lookup(end.mapped, f.cid).value, f))
  }

  lemma CleanCloseIsDone(d: Desk, pid: string, f: Fill)
    requires Sound(d) && Tallied(d) && Lookup(d.mapped, f.cid) == Some(pid) && Clean(CloseInto(d, pid, f).1)
    ensures ExitDone(d, CloseInto(d, pid, f).0, f)
  {
    CleanCloseSettles(d, pid, f);
    CloseCounts(d, pid, f);
    CloseFollows(d, pid, f);
    LaterDesk(d, CloseInto(d, pid, f).0, f.cid, pid);
  }

  lemma DoneOnSameCounts(d: Desk, dm: Desk, end: Desk, f: Fill)
    requires dm == Recounted(dm, d) && ExitDone(dm, end, f)
    ensures ExitDone(d, end, f)
  {
  }

  lemma AttributedKeepsTally(d: Desk, f: Fill)
    requires Tallied(d)
    ensures Tallied(Attributed(d, f)) && Attributed(d, f) == Recounted(Attributed(d, f), d)
  {
  }

  lemma CleanExitIsDone(d: Desk, f: Fill)
    requires Sound(d) && Tallied(d) && Clean(BookExit(d, f).1)
    ensures ExitDone(d, BookExit(d, f).0, f)
  {
    AttributedSteps(d, f);
    ComplaintIsNotClean(Note(f.id, NoMatch));
    AttributedKeepsTally(d, f);
    CleanCloseIsDone(Attributed(d, f), Target(d, f).value, f);
    DoneOnSameCounts(d, Attributed(d, f), BookExit(d, f).0, f);
  }

  lemma CleanBookSettles(d: Desk, f: Fill, terms: Terms)
    requires Sound(d) && Tallied(d) && Clean(Book(d, f, terms).1)
    ensures var end := Book(d, f, terms).0;
      && Settled(end, f, terms) && Tallied(end) && end == Recounted(end, Counts(d, f, terms, end))
  {
    var end := Book(d, f, terms).0;
    if terms.reduceOnly {
      CleanExitIsDone(d, f);
      CountTallies(d, Lookup(end.mapped, f.cid).value, f);
      assert forall p :: At(end.closed, p) == At(Count(d, Lookup(end.mapped, f.cid).value, f).closed, p);
    } else {
      CleanEntrySettles(d, f, terms.quantity);
      EntryKeepsCounts(d, f, terms.quantity);
      assert forall p :: At(end.closed, p) == At(d.closed, p);
    }
  }

  lemma EntryKeepsCounts(d: Desk, f: Fill, intended: real)
    requires Sound(d)
    ensures BookEntry(d, f, intended).0.closed == d.closed && BookEntry(d, f, intended).0.counted == d.counted
  {
    if Lookup(d.mapped, f.cid).Some? {
      IntoFollows(d, Lookup(d.mapped, f.cid).value, f);
    } else if Creates(d, f, intended) {
      CreationFollows(d, f, intended);
    } else {
      NothingCreated(d, f, intended);
    }
  }

  lemma ReportTakes(e: Engine, f: Fill)
    requires EngineSound(e) && Reported(e, f).1.Snap?
    ensures var (w, out) := Reported(e, f);
            var m := O.Replay(w.log).value;
            OH.Taken(m, f.cid, f.id) && m.snapshots[f.cid].terms == out.snapshot.terms
  {
    ReportSteps(e, f);
    if f.id !in O.ProcessedOf(e.orders, f.cid) && !OS.Terminal(e.orders.snapshots[f.cid].state) {
      ReportIsRemembered(e, f);
    }
  }

  lemma TakenReportsNothing(e: Engine, f: Fill)
    requires EngineSound(e) && OH.Taken(O.Replay(e.desk.log).value, f.cid, f.id)
    ensures var (w, out) := Reported(e, f);
      && out.Snap? && w.log == e.desk.log && OR.SameView(w.mem, e.orders)
      && out.snapshot.terms == O.Replay(e.desk.log).value.snapshots[f.cid].terms
  {
  }

  lemma BookOneIsReportThenBook(e: Engine, f: Fill)
    requires Reported(e, f).1.Snap?
    ensures var (w, out) := Reported(e, f);
            var (d, notes) := Book(e.desk.(log := w.log), f, out.snapshot.terms);
            BookOne(e, f) == (Engine(e.om, w.mem, d), notes)
  {
  }

  lemma CleanIsReported(e: Engine, f: Fill)
    requires Clean(BookOne(e, f).1)
    ensures Reported(e, f).1.Snap?
  {
    ComplaintIsNotClean(Note(f.id, OrderUnknown));
    ComplaintIsNotClean(Note(f.id, Raised));
  }

  lemma TallyOfCounts(d: Desk, d': Desk)
    requires Tallied(d) && d'.closed == d.closed
    ensures Tallied(d')
  {
  }

  lemma CleanParts(a: seq<Note>, b: seq<Note>)
    requires Clean(a + b)
    ensures Clean(a) && Clean(b)
  {
    forall i | 0 <= i < |a|
      ensures a[i].Note? && a[i].kind == PartialClose
    {
      assert (a + b)[i] == a[i];
    }
    forall i | 0 <= i < |b|
      ensures b[i].Note? && b[i].kind == PartialClose
    {
      assert (a + b)[|a| + i] == b[i];
    }
  }

  lemma {:induction false} BookAllAlike(a: Engine, b: Engine, fills: seq<Fill>)
    requires SameEngine(a, b)
    ensures SameEngine(BookAll(a, fills).0, BookAll(b, fills).0) && BookAll(a, fills).1 == BookAll(b, fills).1
  {
    if fills != [] {
      var front := fills[..|fills| - 1];
      BookAllAlike(a, b, front);
      BookOneAlike(BookAll(a, front).0, BookAll(b, front).0, fills[|fills| - 1]);
    }
  }

  lemma {:induction false} BookAllSplits(e: Engine, a: seq<Fill>, b: seq<Fill>)
    ensures BookAll(e, a + b).0 == BookAll(BookAll(e, a).0, b).0
    decreases |b|
  {
    hide BookOne;
    if b == [] {
      assert a + b == a;
    } else {
      assert (a + b)[..|a + b| - 1] == a + b[..|b| - 1];
      BookAllSplits(e, a, b[..|b| - 1]);
    }
  }

  // ---- what a process has seen and settled ----

  /** The accumulators a process has after counting these fills: each exit once, for the position its order goes to. */
  function Tally(e: Engine, h: seq<Fill>): Desk {
    if h == [] then e.desk.(closed := map[], counted := {})
    else
      var d, f := Tally(e, h[..|h| - 1]), h[|h| - 1];
      var pid := Lookup(e.desk.mapped, f.cid);
      if ReduceOnly(e.desk.log, f.cid) == Some(true) && pid.Some? then Count(d, pid.value, f) else d
  }

  /** The fill is the engine's for good. */
  predicate SettledIn(e: Engine, f: Fill) {
    && OrderTook(e.desk.log, f)
    && if ReduceOnly(e.desk.log, f.cid) == Some(true) then
         Lookup(e.desk.mapped, f.cid).Some? && SettledExit(e.desk, f, At(e.desk.closed, Lookup(e.desk.mapped, f.cid).value))
       else SettledEntry(e.desk, f)
  }

  /** A process that has settled these fills, and has counted the exits among them. */
  ghost predicate Current(e: Engine, h: seq<Fill>) {
    EngineSound(e) && e.desk == Tally(e, h) && forall f :: f in h ==> SettledIn(e, f)
  }

  /** A new process has seen nothing yet. */
  lemma NewIsCurrent(e: Engine, log: Log)
    requires LogSound(e.desk.pm, log) && OH.Proper(e.om, log)
    ensures Current(NewProcess(e, log), [])
  {
    assert log[..|log|] == log;
    RestartKeeps(e.(desk := e.desk.(closed := map[], counted := {})), log, |log|);
  }

  lemma {:induction false} TallyIsTallied(e: Engine, h: seq<Fill>)
    ensures Tallied(Tally(e, h))
    ensures Tally(e, h) == Recounted(e.desk, Tally(e, h))
  {
    if h != [] {
      var f := h[|h| - 1];
      TallyIsTallied(e, h[..|h| - 1]);
      if ReduceOnly(e.desk.log, f.cid) == Some(true) && Lookup(e.desk.mapped, f.cid).Some? {
        CountTallies(Tally(e, h[..|h| - 1]), Lookup(e.desk.mapped, f.cid).value, f);
      }
    }
  }

  lemma {:induction false} TallyCounts(e: Engine, h: seq<Fill>, f: Fill)
    requires f in h && ReduceOnly(e.desk.log, f.cid) == Some(true) && Lookup(e.desk.mapped, f.cid).Some?
    ensures f.id in Tally(e, h).counted
  {
    if f != h[|h| - 1] {
      assert f in h[..|h| - 1];
      TallyCounts(e, h[..|h| - 1], f);
    }
  }

  /** The count for a position only grows with the fills. */
  lemma {:induction false} TallyGrows(e: Engine, h: seq<Fill>, k: nat, pid: string)
    requires k <= |h|
    ensures At(Tally(e, h[..k]).closed, pid) <= At(Tally(e, h).closed, pid)
    decreases |h|
  {
    if k == |h| {
      assert h[..k] == h;
    } else {
      assert h[..|h| - 1][..k] == h[..k];
      TallyGrows(e, h[..|h| - 1], k, pid);
    }
  }

  // ---- in the same process ----

  lemma SettledReportsNothing(e: Engine, f: Fill)
    requires EngineSound(e) && OrderTook(e.desk.log, f)
    ensures var (w, out) := Reported(e, f);
      && out.Snap? && w.log == e.desk.log && OR.SameView(w.mem, e.orders)
      && ReduceOnly(e.desk.log, f.cid) == Some(out.snapshot.terms.reduceOnly)
      && BookOne(e, f) == (Engine(e.om, w.mem, Book(e.desk, f, out.snapshot.terms).0), Book(e.desk, f, out.snapshot.terms).1)
  {
    TakenReportsNothing(e, f);
    BookOneIsReportThenBook(e, f);
    assert e.desk.(log := e.desk.log) == e.desk;
  }

  lemma SettledRests(e: Engine, h: seq<Fill>, f: Fill)
    requires Current(e, h) && f in h
    ensures SameEngine(BookOne(e, f).0, e)
  {
    SettledReportsNothing(e, f);
    var terms := Reported(e, f).1.snapshot.terms;
    if terms.reduceOnly {
      var pid := Lookup(e.desk.mapped, f.cid).value;
      TallyCounts(e, h, f);
      assert Count(e.desk, pid, f) == e.desk;
      SettledExitOnlyCounts(e.desk, f);
    } else {
      SettledEntryBooksNothing(e.desk, f, terms.quantity);
    }
  }

  /** What a process has settled it may be shown again, in any order and any number of times. */
  lemma {:induction false} SettledForGood(e: Engine, h: seq<Fill>, again: seq<Fill>)
    requires Current(e, h) && forall f :: f in again ==> f in h
    ensures SameEngine(BookAll(e, again).0, e)
  {
    if again != [] {
      var front, f := again[..|again| - 1], again[|again| - 1];
      assert f in again && forall g :: g in front ==> g in again;
      SettledForGood(e, h, front);
      SettledRests(e, h, f);
      BookOneAlike(BookAll(e, front).0, e, f);
    }
  }

  // ---- further down the log ----

  lemma KindAndMapStay(e: Engine, e': Engine, f: Fill)
    requires EngineSound(e) && EngineSound(e') && e'.om == e.om && e'.desk.pm == e.desk.pm && e.desk.log <= e'.desk.log
    requires OrderTook(e.desk.log, f)
    ensures OrderTook(e'.desk.log, f) && ReduceOnly(e'.desk.log, f.cid) == ReduceOnly(e.desk.log, f.cid)
    ensures Lookup(e.desk.mapped, f.cid).Some? ==> Lookup(e'.desk.mapped, f.cid) == Lookup(e.desk.mapped, f.cid)
  {
    assert e'.desk.log[..|e.desk.log|] == e.desk.log;
    KindStays(e.om, e'.desk.log, |e.desk.log|, f.cid);
    TookStays(e.om, e'.desk.log, |e.desk.log|, f);
    LaterDesk(e.desk, e'.desk, f.cid, "");
  }

  lemma {:induction false} TallyStays(e: Engine, e': Engine, h: seq<Fill>)
    requires EngineSound(e) && EngineSound(e') && e'.om == e.om && e'.desk.pm == e.desk.pm && e.desk.log <= e'.desk.log
    requires forall f :: f in h ==> SettledIn(e, f)
    ensures Tally(e', h).closed == Tally(e, h).closed && Tally(e', h).counted == Tally(e, h).counted
  {
    hide EngineSound, SettledExit, SettledEntry, ReduceOnly, Lookup, OrderTook;
    if h != [] {
      var f := h[|h| - 1];
      assert f in h && forall g :: g in h[..|h| - 1] ==> g in h;
      TallyStays(e, e', h[..|h| - 1]);
      KindAndMapStay(e, e', f);
    }
  }

  /** Settled stays settled, whatever else is added to the log, while the count of its position does not pass it by. */
  lemma SettledStays(e: Engine, e': Engine, f: Fill)
    requires EngineSound(e) && EngineSound(e') && e'.om == e.om && e'.desk.pm == e.desk.pm && e'.desk.leverage == e.desk.leverage
    requires e.desk.log <= e'.desk.log && SettledIn(e, f)
    ensures OrderTook(e'.desk.log, f) && ReduceOnly(e'.desk.log, f.cid) == ReduceOnly(e.desk.log, f.cid)
    ensures ReduceOnly(e.desk.log, f.cid) == Some(true) ==>
              Lookup(e'.desk.mapped, f.cid) == Lookup(e.desk.mapped, f.cid)
              && SettledExit(e'.desk, f, At(e.desk.closed, Lookup(e.desk.mapped, f.cid).value))
    ensures ReduceOnly(e.desk.log, f.cid) != Some(true) ==> SettledEntry(e'.desk, f)
  {
    KindAndMapStay(e, e', f);
    if ReduceOnly(e.desk.log, f.cid) == Some(true) {
      ExitStaysSettled(e.desk, e'.desk, f, At(e.desk.closed, Lookup(e.desk.mapped, f.cid).value));
    } else {
      EntryStaysSettled(e.desk, e'.desk, f);
    }
  }

  lemma CurrentStays(e: Engine, e': Engine, h: seq<Fill>)
    requires Current(e, h) && EngineSound(e') && e'.om == e.om && e'.desk.pm == e.desk.pm && e'.desk.leverage == e.desk.leverage
    requires e.desk.log <= e'.desk.log && e'.desk == Recounted(e'.desk, e.desk)
    ensures Current(e', h)
  {
    TallyStays(e, e', h);
    TallyIsTallied(e', h);
    forall f | f in h
      ensures SettledIn(e', f)
    {
      SettledStays(e, e', f);
    }
  }

  /** What was settled with `c` closed so far is settled with less. */
  lemma SettledWithLess(d: Desk, f: Fill, c: real, less: real)
    requires SettledExit(d, f, c) && less <= c
    ensures SettledExit(d, f, less)
  {
  }

  /** The engine of a new process on a later log, after it has counted the first `k` fills. */
  function CaughtUp(e: Engine, h: seq<Fill>, k: nat, log: Log): Engine
    requires k <= |h|
  {
    Restarted(e.(desk := Tally(e, h[..k])), log)
  }

  lemma CaughtUpIsSound(e: Engine, h: seq<Fill>, k: nat, log: Log)
    requires EngineSound(e) && LogSound(e.desk.pm, log) && OH.Proper(e.om, log) && k <= |h|
    ensures var c := CaughtUp(e, h, k, log);
            EngineSound(c) && c.desk.log == log && c.om == e.om && c.desk.pm == e.desk.pm && c.desk.leverage == e.desk.leverage
    ensures CaughtUp(e, h, k, log).desk == Recounted(Rebuilt(e.desk, log), Tally(e, h[..k]))
  {
    TallyIsTallied(e, h[..k]);
    assert log[..|log|] == log;
    RestartKeeps(e.(desk := Tally(e, h[..k])), log, |log|);
  }

  /** A settled exit booked with no more counted than when it was settled: it is counted, and that is all. */
  lemma SettledExitCounts(later: Desk, f: Fill, total: real, terms: Terms)
    requires terms.reduceOnly && Lookup(later.mapped, f.cid).Some? && SettledExit(later, f, total)
    requires var pid := Lookup(later.mapped, f.cid).value; At(Count(later, pid, f).closed, pid) <= total
    ensures Book(later, f, terms).0 == Count(later, Lookup(later.mapped, f.cid).value, f)
  {
    hide BookExit, Count;
    var pid := Lookup(later.mapped, f.cid).value;
    SettledWithLess(later, f, total, At(Count(later, pid, f).closed, pid));
    SettledExitOnlyCounts(later, f);
  }

  lemma CountOnOther(d: Desk, like: Desk, pid: string, f: Fill)
    ensures Count(Recounted(d, like), pid, f) == Recounted(d, Count(like, pid, f))
  {
  }

  lemma CatchUpExit(e: Engine, h: seq<Fill>, k: nat, c: Desk, terms: Terms)
    requires k < |h| && terms.reduceOnly && ReduceOnly(e.desk.log, h[k].cid) == Some(true) && e.desk == Tally(e, h)
    requires Lookup(e.desk.mapped, h[k].cid).Some? && Lookup(c.mapped, h[k].cid) == Lookup(e.desk.mapped, h[k].cid)
    requires SettledExit(c, h[k], At(e.desk.closed, Lookup(e.desk.mapped, h[k].cid).value))
    requires c == Recounted(c, Tally(e, h[..k]))
    ensures Book(c, h[k], terms).0 == Recounted(c, Tally(e, h[..k + 1]))
  {
    hide Book, SettledExit, Count;
    var f, pid := h[k], Lookup(e.desk.mapped, h[k].cid).value;
    var upTo := h[..k + 1];
    assert upTo[..|upTo| - 1] == h[..k] && upTo[|upTo| - 1] == f;
    assert Tally(e, upTo) == Count(Tally(e, h[..k]), pid, f);
    CountOnOther(c, Tally(e, h[..k]), pid, f);
    TallyGrows(e, h, k + 1, pid);
    SettledExitCounts(c, f, At(e.desk.closed, pid), terms);
  }

  lemma CatchUpOne(e: Engine, h: seq<Fill>, k: nat, log: Log)
    requires Current(e, h) && LogSound(e.desk.pm, log) && OH.Proper(e.om, log) && e.desk.log <= log && k < |h|
    ensures SameEngine(BookOne(CaughtUp(e, h, k, log), h[k]).0, CaughtUp(e, h, k + 1, log))
  {
    hide Book, SettledExit, SettledEntry, Count, Rebuilt, EngineSound, ReduceOnly, Lookup, O.ReportFill;
    var f, c := h[k], CaughtUp(e, h, k, log);
    CaughtUpIsSound(e, h, k, log);
    CaughtUpIsSound(e, h, k + 1, log);
    SettledStays(e, c, f);
    SettledReportsNothing(c, f);
    var terms := Reported(c, f).1.snapshot.terms;
    var upTo := h[..k + 1];
    assert upTo[..|upTo| - 1] == h[..k] && upTo[|upTo| - 1] == f;
    if terms.reduceOnly {
      CatchUpExit(e, h, k, c.desk, terms);
    } else {
      SettledEntryIsNothing(c.desk, f, terms);
    }
  }

  lemma SettledEntryIsNothing(d: Desk, f: Fill, terms: Terms)
    requires SettledEntry(d, f) && !terms.reduceOnly
    ensures Book(d, f, terms).0 == d
  {
    SettledEntryBooksNothing(d, f, terms.quantity);
  }

  /**
   A new process catches up.  It starts with nothing counted, on any log that has grown out
   of the old process's; once it has booked the fills the old process had settled, it has
   appended nothing and counts what the old process counted.
   */
  lemma CatchesUp(e: Engine, h: seq<Fill>, log: Log)
    requires Current(e, h) && LogSound(e.desk.pm, log) && OH.Proper(e.om, log) && e.desk.log <= log
    ensures SameEngine(BookAll(NewProcess(e, log), h).0, Restarted(e, log))
  {
    CatchUpTo(e, h, |h|, log);
    assert h[..|h|] == h;
    assert e.(desk := Tally(e, h)) == e;
  }

  lemma {:induction false} CatchUpTo(e: Engine, h: seq<Fill>, k: nat, log: Log)
    requires Current(e, h) && LogSound(e.desk.pm, log) && OH.Proper(e.om, log) && e.desk.log <= log && k <= |h|
    ensures SameEngine(BookAll(NewProcess(e, log), h[..k]).0, CaughtUp(e, h, k, log))
  {
    hide BookOne, Rebuilt, O.Replay, Current, LogSound;
    if k == 0 {
      assert h[..0] == [];
    } else {
      var upTo := h[..k];
      assert upTo[..|upTo| - 1] == h[..k - 1] && upTo[|upTo| - 1] == h[k - 1];
      CatchUpTo(e, h, k - 1, log);
      CatchUpOne(e, h, k - 1, log);
      BookOneAlike(BookAll(NewProcess(e, log), h[..k - 1]).0, CaughtUp(e, h, k - 1, log), h[k - 1]);
    }
  }

  // ---- one more fill ----

  /** An exit whose id the position it would close does not have yet. */
  predicate FreshExit(e: Engine, f: Fill) {
    ReduceOnly(e.desk.log, f.cid) == Some(true) && Target(e.desk, f).Some? ==>
      var pid := Target(e.desk, f).value;
      pid in e.desk.positions.snapshots && !Dead(e.desk.positions.snapshots[pid].state) ==> f.id !in P.ProcessedOf(e.desk.positions, pid)
  }

  /** A clean close of a new fill leaves the position dead or still waiting. */
  lemma CleanCloseRests(d: Desk, pid: string, f: Fill)
    requires Sound(d) && Tallied(d) && Lookup(d.mapped, f.cid) == Some(pid) && Clean(CloseInto(d, pid, f).1)
    requires pid in d.positions.snapshots && !Dead(d.positions.snapshots[pid].state) ==> f.id !in P.ProcessedOf(d.positions, pid)
    ensures var end := CloseInto(d, pid, f).0;
      && pid in end.positions.snapshots
      && (Dead(end.positions.snapshots[pid].state) || At(end.closed, pid) < end.positions.snapshots[pid].filled)
  {
    ComplaintIsNotClean(Note(f.id, Raised));
    TrancheSteps(d, pid, f);
    var x := Tranche(d, pid, f);
    if Completes(d, pid, f) {
      if Closable(x, pid, f) {
        ClosePersists(x, pid, f);
        AskSteps(Closed(x, pid, f), L.Release(pid, "close:" + pid));
      } else {
        CloseStands(x, pid, f);
        assert false;
      }
    }
  }

  lemma CleanExitRests(d: Desk, f: Fill)
    requires Sound(d) && Tallied(d) && Clean(BookExit(d, f).1)
    requires Target(d, f).Some? ==>
      var pid := Target(d, f).value;
      pid in d.positions.snapshots && !Dead(d.positions.snapshots[pid].state) ==> f.id !in P.ProcessedOf(d.positions, pid)
    ensures var end := BookExit(d, f).0;
      && Target(d, f).Some? && Target(d, f).value in end.positions.snapshots
      && var s := end.positions.snapshots[Target(d, f).value];
         Dead(s.state) || At(end.closed, Target(d, f).value) < s.filled
  {
    AttributedSteps(d, f);
    ComplaintIsNotClean(Note(f.id, NoMatch));
    AttributedKeepsTally(d, f);
    AttributionKeepsBooks(d, f);
    CleanCloseRests(Attributed(d, f), Target(d, f).value, f);
  }

  lemma AttributionKeepsBooks(d: Desk, f: Fill)
    ensures Attributed(d, f).positions == d.positions && Attributed(d, f).closed == d.closed
  {
  }

  /** What one clean booking leaves: the fill settled, counted if it is an exit, and the engine further on. */
  ghost predicate BookedOne(e: Engine, e': Engine, f: Fill) {
    && EngineSound(e') && e'.om == e.om && e'.desk.pm == e.desk.pm && e'.desk.leverage == e.desk.leverage && e.desk.log <= e'.desk.log
    && SettledIn(e', f) && ReduceOnly(e.desk.log, f.cid).Some? && ReduceOnly(e'.desk.log, f.cid) == ReduceOnly(e.desk.log, f.cid)
    && if ReduceOnly(e.desk.log, f.cid) == Some(true) then
         Lookup(e'.desk.mapped, f.cid).Some?
         && e'.desk == Recounted(e'.desk, Count(e.desk, Lookup(e'.desk.mapped, f.cid).value, f))
       else e'.desk == Recounted(e'.desk, e.desk)
  }

  lemma ReportedKind(e: Engine, f: Fill)
    requires EngineSound(e) && Reported(e, f).1.Snap?
    ensures var (w, out) := Reported(e, f);
      && ReduceOnly(e.desk.log, f.cid) == Some(out.snapshot.terms.reduceOnly) == ReduceOnly(w.log, f.cid) && OrderTook(w.log, f)
  {
    var w := Reported(e, f).0;
    ReportSteps(e, f);
    ReportTakes(e, f);
    assert w.log[..|e.desk.log|] == e.desk.log;
    KindStays(e.om, w.log, |e.desk.log|, f.cid);
  }

  lemma CleanBooksOne(e: Engine, f: Fill)
    requires EngineSound(e) && Tallied(e.desk) && Clean(BookOne(e, f).1)
    ensures BookedOne(e, BookOne(e, f).0, f)
  {
    hide Book, SettledExit, SettledEntry, Count, Rebuilt;
    CleanIsReported(e, f);
    BookOneIsReportThenBook(e, f);
    var (w, out) := Reported(e, f);
    ReportSteps(e, f);
    ReportedKind(e, f);
    var d := e.desk.(log := w.log);
    TallyOfCounts(e.desk, d);
    CleanBookSettles(d, f, out.snapshot.terms);
    BookFollows(d, f, out.snapshot.terms);
    BookOneKeeps(e, f);
    var e' := BookOne(e, f).0;
    assert e'.desk.log[..|w.log|] == w.log;
    KindStays(e.om, e'.desk.log, |w.log|, f.cid);
    TookStays(e.om, e'.desk.log, |w.log|, f);
    CountsOnReport(e.desk, d, e'.desk, f, out.snapshot.terms);
  }

  lemma CountsOnReport(d: Desk, d1: Desk, end: Desk, f: Fill, terms: Terms)
    requires d1 == d.(log := d1.log) && end == Recounted(end, Counts(d1, f, terms, end))
    ensures end == Recounted(end, if terms.reduceOnly && Lookup(end.mapped, f.cid).Some? then Count(d, Lookup(end.mapped, f.cid).value, f) else d)
  {
  }

  lemma MapBehindExit(d: Desk, f: Fill)
    requires Sound(d) && Target(d, f).Some?
    ensures Lookup(BookExit(d, f).0.mapped, f.cid) == Target(d, f)
  {
    AttributedSteps(d, f);
    CloseFollows(Attributed(d, f), Target(d, f).value, f);
    LaterDesk(Attributed(d, f), BookExit(d, f).0, f.cid, "");
  }

  /** Behind a clean booking of a fresh exit its position is dead or still waiting for more. */
  lemma NewExitRests(e: Engine, f: Fill)
    requires EngineSound(e) && Tallied(e.desk) && Clean(BookOne(e, f).1) && FreshExit(e, f) && ReduceOnly(e.desk.log, f.cid) == Some(true)
    ensures var d := BookOne(e, f).0.desk;
      Lookup(d.mapped, f.cid).Some? && Lookup(d.mapped, f.cid).value in d.positions.snapshots
      && var pid := Lookup(d.mapped, f.cid).value;
         Dead(d.positions.snapshots[pid].state) || At(d.closed, pid) < d.positions.snapshots[pid].filled
  {
    hide BookExit, BookEntry, FindOpen;
    CleanIsReported(e, f);
    BookOneIsReportThenBook(e, f);
    var (w, out) := Reported(e, f);
    ReportSteps(e, f);
    ReportedKind(e, f);
    var d := e.desk.(log := w.log);
    TallyOfCounts(e.desk, d);
    assert Target(d, f) == Target(e.desk, f);
    CleanExitRests(d, f);
    MapBehindExit(d, f);
  }

  lemma CountElsewhere(d: Desk, pid: string, f: Fill, other: string)
    requires other != pid
    ensures At(Count(d, pid, f).closed, other) == At(d.closed, other)
  {
  }

  /** The fills settled before stay settled behind a clean booking of a fresh exit, or of an entry. */
  lemma OldFillStays(e: Engine, f: Fill, g: Fill)
    requires EngineSound(e) && Tallied(e.desk) && Clean(BookOne(e, f).1) && FreshExit(e, f) && SettledIn(e, g)
    ensures SettledIn(BookOne(e, f).0, g)
  {
    hide BookOne, Clean, FreshExit, SettledEntry;
    var e' := BookOne(e, f).0;
    CleanBooksOne(e, f);
    SettledStays(e, e', g);
    if ReduceOnly(e.desk.log, g.cid) == Some(true) && ReduceOnly(e.desk.log, f.cid) == Some(true) {
      var pid := Lookup(e'.desk.mapped, f.cid).value;
      if Lookup(e.desk.mapped, g.cid).value == pid {
        NewExitRests(e, f);
      } else {
        CountElsewhere(e.desk, pid, f, Lookup(e.desk.mapped, g.cid).value);
      }
    }
  }

  lemma TallyOfOneMore(e: Engine, e': Engine, h: seq<Fill>, f: Fill)
    requires Current(e, h) && BookedOne(e, e', f)
    ensures e'.desk == Tally(e', h + [f])
  {
    hide SettledIn, EngineSound, Count;
    assert (h + [f])[..|h|] == h;
    TallyStays(e, e', h);
    TallyIsTallied(e', h);
    if ReduceOnly(e.desk.log, f.cid) == Some(true) {
      CountOnOther(e'.desk, e.desk, Lookup(e'.desk.mapped, f.cid).value, f);
    }
  }

  /** Booking a new fill without a complaint settles it, and keeps what was settled. */
  lemma OneMoreIsCurrent(e: Engine, h: seq<Fill>, f: Fill)
    requires Current(e, h) && Clean(BookOne(e, f).1) && FreshExit(e, f)
    ensures Current(BookOne(e, f).0, h + [f])
  {
    hide SettledIn, BookOne, Clean, FreshExit, Rebuilt;
    var e' := BookOne(e, f).0;
    TallyIsTallied(e, h);
    CleanBooksOne(e, f);
    TallyOfOneMore(e, e', h, f);
    forall g | g in h + [f]
      ensures SettledIn(e', g)
    {
      if g in h {
        OldFillStays(e, f, g);
      }
    }
  }

  lemma CurrentAlike(a: Engine, b: Engine, h: seq<Fill>)
    requires Current(a, h) && SameEngine(a, b) && EngineSound(b)
    ensures Current(b, h)
  {
    CurrentStays(a, b, h);
  }

  /** No exit of the pass from the `k`-th fill on carries an id its live position has. */
  predicate FreshFrom(e: Engine, fills: seq<Fill>, k: nat) {
    forall i :: k <= i < |fills| ==> FreshExit(BookAll(e, fills[..i]).0, fills[i])
  }

  lemma {:induction false} CleanUpTo(e: Engine, fills: seq<Fill>, k: nat)
    requires Clean(BookAll(e, fills).1) && k <= |fills|
    ensures Clean(BookAll(e, fills[..k]).1)
    ensures k < |fills| ==> Clean(BookOne(BookAll(e, fills[..k]).0, fills[k]).1)
    decreases |fills|
  {
    hide BookOne, Clean;
    if k == |fills| {
      assert fills[..k] == fills;
    } else {
      var front := fills[..|fills| - 1];
      CleanParts(BookAll(e, front).1, BookOne(BookAll(e, front).0, fills[|fills| - 1]).1);
      CleanUpTo(e, front, k);
      assert front[..k] == fills[..k];
    }
  }

  /** A process that books a longer history without a complaint has settled all of it. */
  lemma {:induction false} PassIsCurrent(e: Engine, h: seq<Fill>, fills: seq<Fill>)
    requires Current(e, h) && h <= fills && Clean(BookAll(e, fills).1) && FreshFrom(e, fills, |h|)
    ensures Current(BookAll(e, fills).0, fills)
    decreases |fills|
  {
    hide BookOne, Current, Clean, FreshFrom;
    if |fills| == |h| {
      assert fills == h;
      SamePassIsCurrent(e, h);
    } else {
      var front, f := fills[..|fills| - 1], fills[|fills| - 1];
      assert fills[..|front|] == front;
      CleanUpTo(e, fills, |front|);
      FreshFront(e, fills, |h|);
      PassIsCurrent(e, h, front);
      OneMoreIsCurrent(BookAll(e, front).0, front, f);
      assert front + [f] == fills;
    }
  }

  lemma SamePassIsCurrent(e: Engine, h: seq<Fill>)
    requires Current(e, h)
    ensures Current(BookAll(e, h).0, h)
  {
    SettledForGood(e, h, h);
    BookAllKeeps(e, h);
    CurrentAlike(e, BookAll(e, h).0, h);
  }

  lemma FreshFront(e: Engine, fills: seq<Fill>, k: nat)
    requires FreshFrom(e, fills, k) && k < |fills|
    ensures var front := fills[..|fills| - 1]; FreshFrom(e, front, k) && FreshExit(BookAll(e, front).0, fills[|fills| - 1])
  {
    hide BookAll, FreshExit;
    var front := fills[..|fills| - 1];
    assert forall i :: 0 <= i < |front| ==> front[..i] == fills[..i];
  }
}
