/**
 Passes over the venue's fills: shown again to the same process, cut short by a crash, and
 started over by a new one that has nothing counted.
 */
module PassHealing {
  import opened Wrappers
  import opened EventLog
  import opened Records
  import opened Accounting
  import opened AccountingRuns
  import opened AccountingHealing
  import opened ExitHealing
  import opened CrashHealing
  import opened EngineRuns
  import opened FillTrail
  import opened SyncHealing
  import opened Sums
  import OH = OrderHistory
  import OR = OrderRuns
  import O = Orders
  import PS = PositionStates
  import P = Positions
  import PH = PositionHistory
  import L = Portfolio

  // ---- a crash while one fill is booked ----

  lemma CutIsLater(e: Engine, f: Fill, n: nat)
    requires EngineSound(e) && |e.desk.log| <= n <= |BookOne(e, f).0.desk.log|
    ensures var cut := BookOne(e, f).0.desk.log[..n];
      LogSound(e.desk.pm, cut) && OH.Proper(e.om, cut) && e.desk.log <= cut
  {
    BookOneKeeps(e, f);
    LogSoundPrefix(e.desk.pm, BookOne(e, f).0.desk.log, n);
    OH.ProperPrefix(e.om, BookOne(e, f).0.desk.log, n);
  }

  /**
   Crash healing, exactly.  A process that has settled a history books one more fill and
   dies after any of the events that appends.  A new process, with nothing counted, books
   the history and the fill.  Log, positions, portfolio ledger, maps, accumulators and the
   orders' view end as in the uninterrupted booking if and only if the cut is not between
   a position's creation and its mapping, nor between a close and the release of its
   margin.
   */
  lemma BookingHeals(e: Engine, h: seq<Fill>, f: Fill, n: nat)
    requires Current(e, h) && |e.desk.log| <= n <= |BookOne(e, f).0.desk.log|
    ensures var end := BookOne(e, f).0;
            var again := BookAll(NewProcess(e, end.desk.log[..n]), h + [f]).0;
      && (!InWindow(end.desk.log, |e.desk.log|, n) ==> SameEngine(again, end))
      && (InWindow(end.desk.log, |e.desk.log|, n) ==> again.desk.log != end.desk.log)
  {
    var cut := BookOne(e, f).0.desk.log[..n];
    CutIsLater(e, f, n);
    CatchesUp(e, h, cut);
    assert (h + [f])[..|h|] == h;
    BookOneAlike(BookAll(NewProcess(e, cut), h).0, Restarted(e, cut), f);
    RebookingHeals(e, f, n);
  }

  // ---- a crash in the middle of a pass ----

  lemma SamePass(a: Engine, b: Engine, done: seq<Fill>, rest: seq<Fill>)
    requires SameEngine(BookAll(a, done).0, BookAll(b, done).0)
    ensures SameEngine(BookAll(a, done + rest).0, BookAll(b, done + rest).0)
  {
    BookAllSplits(a, done, rest);
    BookAllSplits(b, done, rest);
    BookAllAlike(BookAll(a, done).0, BookAll(b, done).0, rest);
  }

  /** The pass died at a fill the process had settled before: nothing was lost but the counts. */
  lemma HealsInHistory(e: Engine, h: seq<Fill>, fills: seq<Fill>)
    requires Current(e, h) && h <= fills
    ensures SameEngine(BookAll(NewProcess(e, e.desk.log), fills).0, BookAll(e, fills).0)
  {
    CatchesUp(e, h, e.desk.log);
    RestartedIsSame(e);
    SettledForGood(e, h, h);
    assert h + fills[|h|..] == fills;
    SamePass(NewProcess(e, e.desk.log), e, h, fills[|h|..]);
  }

  /** The pass died at a new fill: the new process catches up with everything before it. */
  lemma HealsAtNewFill(e: Engine, fills: seq<Fill>, k: nat, n: nat)
    requires k < |fills| && Current(BookAll(e, fills[..k]).0, fills[..k])
    requires var mid := BookAll(e, fills[..k]).0;
             var end := BookOne(mid, fills[k]).0.desk.log;
      |mid.desk.log| <= n <= |end| && !InWindow(end, |mid.desk.log|, n)
    ensures var mid := BookAll(e, fills[..k]).0;
            SameEngine(BookAll(NewProcess(mid, BookOne(mid, fills[k]).0.desk.log[..n]), fills).0, BookAll(e, fills).0)
  {
    hide BookOne, Current, NewProcess, InWindow, SameEngine;
    var mid, upTo := BookAll(e, fills[..k]).0, fills[..k + 1];
    var died := NewProcess(mid, BookOne(mid, fills[k]).0.desk.log[..n]);
    BookingHeals(mid, fills[..k], fills[k], n);
    assert upTo == fills[..k] + [fills[k]] && upTo[..|upTo| - 1] == fills[..k];
    assert BookAll(e, upTo).0 == BookOne(mid, fills[k]).0;
    assert upTo + fills[k + 1..] == fills;
    SamePass(died, e, upTo, fills[k + 1..]);
  }

  /**
   A whole pass heals.  A process that has settled a history, by whatever earlier passes,
   starts a pass over a longer one and dies while booking its `k`-th fill.  A new process,
   with nothing counted, books every fill from the first.  When the fills up to there are
   booked without a complaint and the cut is in neither window, the pass ends as if
   nothing had happened.
   */
  lemma SyncHeals(e: Engine, h: seq<Fill>, fills: seq<Fill>, k: nat, n: nat)
    requires Current(e, h) && h <= fills && k < |fills|
    requires Clean(BookAll(e, fills[..k]).1) && FreshFrom(e, fills[..k], |h|)
    requires var mid := BookAll(e, fills[..k]).0;
             var end := BookOne(mid, fills[k]).0.desk.log;
      |mid.desk.log| <= n <= |end| && !InWindow(end, |mid.desk.log|, n)
    ensures var mid := BookAll(e, fills[..k]).0;
            SameEngine(BookAll(NewProcess(e, BookOne(mid, fills[k]).0.desk.log[..n]), fills).0, BookAll(e, fills).0)
  {
    hide BookOne, Current, FreshFrom, Clean, SameEngine;
    var mid := BookAll(e, fills[..k]).0;
    SettledParts(e, h);
    BookAllKeeps(e, fills[..k]);
    BookAllKeepsLeverage(e, fills[..k]);
    if |h| <= k {
      assert h <= fills[..k];
      PassIsCurrent(e, h, fills[..k]);
      SameNewProcess(e, mid, BookOne(mid, fills[k]).0.desk.log[..n]);
      HealsAtNewFill(e, fills, k, n);
    } else {
      DiesInHistory(e, h, fills, k, n);
      HealsInHistory(e, h, fills);
    }
  }

  lemma SettledParts(e: Engine, h: seq<Fill>)
    requires Current(e, h)
    ensures EngineSound(e)
  {
  }

  lemma SameNewProcess(e: Engine, e': Engine, log: Log)
    requires e'.om == e.om && e'.desk.pm == e.desk.pm && e'.desk.leverage == e.desk.leverage
    ensures NewProcess(e', log) == NewProcess(e, log)
  {
  }

  /** Booking settled fills appends nothing, so a cut there leaves the log as it was. */
  lemma DiesInHistory(e: Engine, h: seq<Fill>, fills: seq<Fill>, k: nat, n: nat)
    requires Current(e, h) && h <= fills && k < |h|
    requires var mid := BookAll(e, fills[..k]).0; |mid.desk.log| <= n <= |BookOne(mid, fills[k]).0.desk.log|
    ensures var mid := BookAll(e, fills[..k]).0; BookOne(mid, fills[k]).0.desk.log[..n] == e.desk.log
  {
    var mid := BookAll(e, fills[..k]).0;
    assert forall f :: f in fills[..k] ==> f in h;
    SettledForGood(e, h, fills[..k]);
    assert fills[k] == h[k];
    SettledRests(e, h, h[k]);
    BookOneAlike(mid, e, fills[k]);
    assert e.desk.log[..n] == e.desk.log;
  }

  // ---- the same pass twice in one process ----

  /** The fill has been booked, whatever became of its position's close. */
  predicate Presented(e: Engine, f: Fill) {
    && OrderTook(e.desk.log, f)
    && if ReduceOnly(e.desk.log, f.cid) == Some(true) then
         && Lookup(e.desk.mapped, f.cid).Some? && f.id in e.desk.counted
         && var pid := Lookup(e.desk.mapped, f.cid).value;
            pid in e.desk.positions.snapshots && e.desk.positions.snapshots[pid].avg.Some?
            && HasKey(e.desk.log, ForPortfolio(RealizedKey(pid, f.id)))
       else SettledEntry(e.desk, f)
  }

  /**
   A close that is overdue: all is counted that was filled, the position lives on, and this
   fill would close it, or release its margin.
   */
  predicate Overdue(d: Desk, f: Fill) {
    Lookup(d.mapped, f.cid).Some? &&
    var pid := Lookup(d.mapped, f.cid).value;
    && pid in d.positions.snapshots && !Dead(d.positions.snapshots[pid].state)
    && At(d.closed, pid) >= d.positions.snapshots[pid].filled
    && (Closable(d, pid, f) || (f.id in P.ProcessedOf(d.positions, pid) && !ReleaseOver(d, pid)))
  }

  lemma CleanPresents(e: Engine, f: Fill)
    requires EngineSound(e) && Tallied(e.desk) && Clean(BookOne(e, f).1)
    ensures Presented(BookOne(e, f).0, f)
  {
    CleanBooksOne(e, f);
  }

  lemma PresentedStays(e: Engine, e': Engine, f: Fill)
    requires EngineSound(e) && EngineSound(e') && e'.om == e.om && e'.desk.pm == e.desk.pm && e'.desk.leverage == e.desk.leverage
    requires e.desk.log <= e'.desk.log && e.desk.counted <= e'.desk.counted && Presented(e, f)
    ensures Presented(e', f)
  {
    KindAndMapStay(e, e', f);
    if ReduceOnly(e.desk.log, f.cid) == Some(true) {
      var pid := Lookup(e.desk.mapped, f.cid).value;
      LaterDesk(e.desk, e'.desk, f.cid, pid);
      KeyStays(e.desk.log, e'.desk.log, ForPortfolio(RealizedKey(pid, f.id)));
    } else {
      EntryStaysSettled(e.desk, e'.desk, f);
    }
  }

  lemma CountedGrows(e: Engine, f: Fill)
    requires EngineSound(e) && Tallied(e.desk) && Clean(BookOne(e, f).1)
    ensures e.desk.counted <= BookOne(e, f).0.desk.counted && Tallied(BookOne(e, f).0.desk)
  {
    CleanBooksOne(e, f);
    var e' := BookOne(e, f).0;
    if ReduceOnly(e.desk.log, f.cid) == Some(true) {
      var pid := Lookup(e'.desk.mapped, f.cid).value;
      CountTallies(e.desk, pid, f);
      TallyOfCounts(Count(e.desk, pid, f), e'.desk);
    } else {
      TallyOfCounts(e.desk, e'.desk);
    }
  }

  lemma {:induction false} PassPresents(e: Engine, fills: seq<Fill>)
    requires EngineSound(e) && Tallied(e.desk) && Clean(BookAll(e, fills).1)
    ensures var end := BookAll(e, fills).0;
      EngineSound(end) && Tallied(end.desk) && forall f :: f in fills ==> Presented(end, f)
  {
    hide BookOne, Presented, Clean, Tallied;
    if fills != [] {
      var front, f := fills[..|fills| - 1], fills[|fills| - 1];
      var mid := BookAll(e, front).0;
      CleanParts(BookAll(e, front).1, BookOne(mid, f).1);
      PassPresents(e, front);
      CleanPresents(mid, f);
      CountedGrows(mid, f);
      BookOneKeeps(mid, f);
      BookOneKeepsLeverage(mid, f);
      forall g | g in front
        ensures Presented(BookOne(mid, f).0, g)
      {
        PresentedStays(mid, BookOne(mid, f).0, g);
      }
    }
  }

  /** What a presented exit does: nothing, unless the close of its position is overdue. */
  lemma PresentedExit(d: Desk, f: Fill)
    requires Sound(d) && Lookup(d.mapped, f.cid).Some? && f.id in d.counted
    requires var pid := Lookup(d.mapped, f.cid).value;
      pid in d.positions.snapshots && d.positions.snapshots[pid].avg.Some? && HasKey(d.log, ForPortfolio(RealizedKey(pid, f.id)))
    ensures !Overdue(d, f) ==> BookExit(d, f).0 == d
    ensures Overdue(d, f) ==> |BookExit(d, f).0.log| > |d.log|
  {
    hide Rebuilt, LogSound, Realized;
    var pid := Lookup(d.mapped, f.cid).value;
    var s := d.positions.snapshots[pid];
    AskAgain(d, L.BookPnl(pid, f.id, Realized(s.terms.side, s.avg.value, f)));
    assert Tranche(d, pid, f) == d;
    if !Dead(s.state) && At(d.closed, pid) >= s.filled {
      var y := Closed(d, pid, f);
      FinishSteps(d, pid, f);
      if Closable(d, pid, f) {
        ClosePersists(d, pid, f);
      } else {
        CloseStands(d, pid, f);
        AskSteps(d, L.Release(pid, "close:" + pid));
      }
    }
  }

  lemma PresentedAgain(e: Engine, f: Fill)
    requires EngineSound(e) && Presented(e, f)
    ensures var e' := BookOne(e, f).0;
            if ReduceOnly(e.desk.log, f.cid) == Some(true) && Overdue(e.desk, f) then |e'.desk.log| > |e.desk.log| else SameEngine(e', e)
  {
    hide BookExit, BookEntry, Overdue;
    SettledReportsNothing(e, f);
    var terms := Reported(e, f).1.snapshot.terms;
    if terms.reduceOnly {
      PresentedExit(e.desk, f);
    } else {
      SettledEntryIsNothing(e.desk, f, terms);
    }
  }

  predicate AnyOverdue(e: Engine, fills: seq<Fill>) {
    exists f :: f in fills && ReduceOnly(e.desk.log, f.cid) == Some(true) && Overdue(e.desk, f)
  }

  lemma {:induction false} PresentedPass(e: Engine, fills: seq<Fill>)
    requires EngineSound(e) && forall f :: f in fills ==> Presented(e, f)
    ensures var e' := BookAll(e, fills).0;
            if AnyOverdue(e, fills) then |e'.desk.log| > |e.desk.log| else SameEngine(e', e)
  {
    hide BookOne, Presented, Overdue;
    if fills != [] {
      var front, f := fills[..|fills| - 1], fills[|fills| - 1];
      var mid := BookAll(e, front).0;
      assert f in fills && forall g :: g in front ==> g in fills;
      PresentedPass(e, front);
      BookAllKeeps(e, front);
      BookOneKeeps(mid, f);
      PresentedAgain(e, f);
      if !AnyOverdue(e, front) {
        BookOneAlike(mid, e, f);
      }
    }
  }

  /**
   The same pass twice in one process.  When the first went without a complaint, the second
   leaves everything as it is if and only if no exit fill among them is overdue.
   */
  lemma RepeatedPass(e: Engine, fills: seq<Fill>)
    requires EngineSound(e) && Tallied(e.desk) && Clean(BookAll(e, fills).1)
    ensures var end := BookAll(e, fills).0;
            SameEngine(BookAll(end, fills).0, end) <==> !AnyOverdue(end, fills)
  {
    PassPresents(e, fills);
    PresentedPass(BookAll(e, fills).0, fills);
  }

  // ---- how a close comes to be overdue ----

  /** A position two exits are attributed to: the first leaves a rest, the second has an id the position knows. */
  predicate Clash(e: Engine, g: Fill, f: Fill, pid: string) {
    && OrderTook(e.desk.log, g) && OrderTook(e.desk.log, f)
    && ReduceOnly(e.desk.log, g.cid) == Some(true) && ReduceOnly(e.desk.log, f.cid) == Some(true)
    && Lookup(e.desk.mapped, g.cid) == Some(pid) && Lookup(e.desk.mapped, f.cid) == Some(pid)
    && g.id != f.id && g.id !in e.desk.counted && f.id !in e.desk.counted
    && g.id !in P.ProcessedOf(e.desk.positions, pid) && f.id in P.ProcessedOf(e.desk.positions, pid)
    && pid in e.desk.positions.snapshots
    && var s := e.desk.positions.snapshots[pid];
       s.state in {PS.PartiallyFilled, PS.FullyFilled} && s.avg.Some? && s.avg.value > 0.0
       && At(e.desk.closed, pid) + g.quantity < s.filled <= At(e.desk.closed, pid) + g.quantity + f.quantity
  }

  lemma PartialExit(d: Desk, g: Fill, pid: string)
    requires Sound(d) && Lookup(d.mapped, g.cid) == Some(pid) && g.id !in d.counted
    requires pid in d.positions.snapshots && !Dead(d.positions.snapshots[pid].state)
    requires At(d.closed, pid) + g.quantity < d.positions.snapshots[pid].filled
    ensures var (end, notes) := BookExit(d, g);
      && notes == [Note(g.id, PartialClose)] && Sound(end)
      && end.positions == d.positions && end.mapped == d.mapped
      && end.closed == d.closed[pid := At(d.closed, pid) + g.quantity] && end.counted == d.counted + {g.id}
  {
    hide BookPnl, Finish, Rebuilt, LogSound;
    TrancheSteps(d, pid, g);
    PnlKeepsCounts(d, pid, d.positions.snapshots[pid], g);
  }

  lemma ClashFirst(e: Engine, g: Fill, f: Fill, pid: string)
    requires EngineSound(e) && Clash(e, g, f, pid)
    ensures var (e1, notes) := BookOne(e, g);
      && EngineSound(e1) && notes == [Note(g.id, PartialClose)]
      && e1.desk.positions == e.desk.positions && e1.desk.mapped == e.desk.mapped && e.desk.log <= e1.desk.log
      && e1.desk.closed == e.desk.closed[pid := At(e.desk.closed, pid) + g.quantity] && e1.desk.counted == e.desk.counted + {g.id}
      && e1.om == e.om && e1.desk.pm == e.desk.pm
  {
    hide BookExit, Rebuilt, O.ReportFill, OrderTook, ReduceOnly, LogSound, OR.Good, Lookup;
    SettledReportsNothing(e, g);
    PartialExit(e.desk, g, pid);
    BookOneKeeps(e, g);
  }

  /** The second exit is taken for a repeat, so the margin goes and the position stays. */
  lemma ClashSecond(d: Desk, f: Fill, pid: string)
    requires Sound(d) && Lookup(d.mapped, f.cid) == Some(pid) && f.id !in d.counted && f.id in P.ProcessedOf(d.positions, pid)
    requires pid in d.positions.snapshots && !Dead(d.positions.snapshots[pid].state)
    requires At(d.closed, pid) + f.quantity >= d.positions.snapshots[pid].filled
    ensures var (end, notes) := BookExit(d, f);
      && notes == [] && end.positions == d.positions && end.mapped == d.mapped
      && At(end.closed, pid) == At(d.closed, pid) + f.quantity
  {
    TrancheSteps(d, pid, f);
    var x := Tranche(d, pid, f);
    CloseStands(x, pid, f);
    AskSteps(x, L.Release(pid, "close:" + pid));
  }

  /**
   The corner in which a pass is not repeatable: with an exit whose id the position had
   taken for an entry, a clean pass counts the whole position as closed and leaves it
   alive, and the same pass again closes it by another fill.
   */
  lemma ClashReopens(e: Engine, g: Fill, f: Fill, pid: string)
    requires EngineSound(e) && Tallied(e.desk) && Clash(e, g, f, pid)
    ensures var (end, notes) := BookAll(e, [g, f]);
      Clean(notes) && AnyOverdue(end, [g, f]) && !SameEngine(BookAll(end, [g, f]).0, end)
  {
    hide BookOne, BookAll, Clash, Overdue, EngineSound, SameEngine, ReduceOnly;
    var e1, e2 := ClashEnds(e, g, f, pid);
    TwoFills(e, g, f);
    assert g in [g, f] && AnyOverdue(e2, [g, f]);
    RepeatedPass(e, [g, f]);
  }

  lemma ClashEnds(e: Engine, g: Fill, f: Fill, pid: string) returns (e1: Engine, e2: Engine)
    requires EngineSound(e) && Clash(e, g, f, pid)
    ensures e1 == BookOne(e, g).0 && e2 == BookOne(e1, f).0
    ensures BookOne(e, g).1 == [Note(g.id, PartialClose)] && BookOne(e1, f).1 == []
    ensures ReduceOnly(e2.desk.log, g.cid) == Some(true) && Overdue(e2.desk, g)
  {
    hide BookOne, BookExit, Rebuilt, O.ReportFill, Tranche, OrderTook, ReduceOnly, EngineSound, Sound, Closable;
    e1 := BookOne(e, g).0;
    e2 := BookOne(e1, f).0;
    ClashFirst(e, g, f, pid);
    KindAndMapStay(e, e1, f);
    KindAndMapStay(e, e1, g);
    SettledReportsNothing(e1, f);
    ClashSoundDesk(e1);
    ClashSecond(e1.desk, f, pid);
    BookOneKeeps(e1, f);
    KindAndMapStay(e1, e2, g);
    ClashIsClosable(e, g, f, e2.desk, pid);
  }

  lemma ClashIsClosable(e: Engine, g: Fill, f: Fill, d: Desk, pid: string)
    requires EngineSound(e) && Clash(e, g, f, pid) && d.positions == e.desk.positions
    ensures Closable(d, pid, g)
  {
    hide Rebuilt, LogSound, OrderTook, ReduceOnly, Lookup;
    TermsArePositive(e.desk, pid);
  }

  lemma TermsArePositive(d: Desk, pid: string)
    requires Sound(d) && pid in d.positions.snapshots
    ensures d.positions.snapshots[pid].terms.stopD > 0.0 && d.positions.snapshots[pid].terms.intended > 0.0
  {
    hide PH.Averages, PH.Quantity, PH.LegTotal, PH.EntryFees, PH.Guard, P.Apply;
    PH.BooksBalance(d.pm, d.log, pid);
  }

  lemma ClashSoundDesk(e: Engine)
    requires EngineSound(e)
    ensures Sound(e.desk)
  {
  }

  lemma TwoFills(e: Engine, g: Fill, f: Fill)
    ensures var (e1, n1) := BookOne(e, g);
            var (e2, n2) := BookOne(e1, f);
            BookAll(e, [g, f]) == (e2, n1 + n2)
  {
    hide BookOne;
    var both, one, none: seq<Fill> := [g, f], [g], [];
    assert both[..|both| - 1] == one && both[|both| - 1] == f && one[..|one| - 1] == none && one[|one| - 1] == g;
    assert BookAll(e, none) == (e, []);
    assert [] + BookOne(e, g).1 == BookOne(e, g).1;
    assert BookAll(e, one) == BookOne(e, g);
  }
}
