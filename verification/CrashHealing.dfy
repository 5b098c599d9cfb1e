/**
 Crash healing for a whole booking, from the order ledger to the release of margin, and the
 exact cuts it does not heal from.
 */
module CrashHealing {
  import opened Wrappers
  import opened EventLog
  import opened Records
  import opened Accounting
  import opened AccountingRuns
  import opened AccountingHealing
  import opened ExitHealing
  import OS = OrderStates
  import O = Orders
  import OH = OrderHistory
  import OR = OrderRuns
  import OT = OrderRestart

  /** The order memory views the log rightly, and the desk is the one the log rebuilds. */
  ghost predicate EngineSound(e: Engine) {
    OR.Good(OrderWorld(e)) && Sound(e.desk)
  }

  // ---- orders and desk pass over each other's records ----

  lemma {:induction false} OrdersPassOver(om: string, log: Log, longer: Log)
    requires OH.Proper(om, log) && OrderFree(log, longer)
    ensures OH.Proper(om, longer) && O.Replay(longer) == O.Replay(log)
    decreases |longer|
  {
    if |longer| > |log| {
      var front, e := longer[..|longer| - 1], longer[|longer| - 1];
      assert longer == front + [e];
      assert OrderFree(log, front);
      OrdersPassOver(om, log, front);
      OH.ProperSnoc(om, front, e);
    } else {
      assert longer == log;
    }
  }

  lemma OrdersStayGood(w: O.World, longer: Log)
    requires OR.Good(w) && w.sent == [] && Ordered(longer) && OrderFree(w.log, longer)
    ensures OR.Good(w.(log := longer))
  {
    OrdersPassOver(w.om, w.log, longer);
  }

  lemma DeskPassesOver(d: Desk, e: Entry)
    requires Sound(d) && e.payload.Order? && SameSource(e.key, e.payload) && Ordered(d.log + [e])
    ensures Sound(d.(log := d.log + [e]))
  {
  }

  // ---- the order ledger's part ----

  function Reported(e: Engine, f: Fill): (O.World, O.Outcome) {
    O.ReportFill(OrderWorld(e), f.cid, f)
  }

  lemma ReportAppends(e: Engine, f: Fill)
    requires Ordered(e.desk.log)
    ensures var (w, out) := Reported(e, f);
      && w.om == e.om && w.sent == [] && !out.Snaps?
      && (w.log == e.desk.log ||
          exists entry: Entry :: entry.payload.Order? && SameSource(entry.key, entry.payload) && w.log == e.desk.log + [entry])
      && (out.Raised? ==> w == OrderWorld(e))
  {
  }

  lemma ReportKeepsOrders(e: Engine, f: Fill)
    requires EngineSound(e)
    ensures OR.Good(Reported(e, f).0)
  {
    var w := OrderWorld(e);
    OR.GoodIsKept(w);
    OR.FillKeeps(x => OR.GoodFrom(w, x), w, f.cid, f);
  }

  lemma ReportSteps(e: Engine, f: Fill)
    requires EngineSound(e)
    ensures var (w, out) := Reported(e, f);
      && OR.Good(w) && Sound(e.desk.(log := w.log)) && e.desk.log <= w.log && |w.log| <= |e.desk.log| + 1
      && (w.log != e.desk.log ==> w.log[|e.desk.log|].payload.Order?)
  {
    var w := Reported(e, f).0;
    ReportAppends(e, f);
    ReportKeepsOrders(e, f);
    var log := w.log;
    if log != e.desk.log {
      var entry: Entry :| entry.payload.Order? && SameSource(entry.key, entry.payload) && log == e.desk.log + [entry];
      DeskPassesOver(e.desk, entry);
    }
  }

  /** The fill reported again, on any later log: nothing to persist, and the order as it was. */
  lemma ReportAgain(e: Engine, f: Fill, c: Engine)
    requires EngineSound(e) && Reported(e, f).1.Snap? && OR.SameView(c.orders, Reported(e, f).0.mem)
    ensures Reported(c, f).0.log == c.desk.log && OR.SameView(Reported(c, f).0.mem, c.orders)
    ensures Reported(c, f).1.Snap? && Reported(c, f).1.snapshot.terms == Reported(e, f).1.snapshot.terms
  {
    var (w, out) := Reported(e, f);
    var s := e.orders.snapshots[f.cid];
    if f.id !in O.ProcessedOf(e.orders, f.cid) && !OS.Terminal(s.state) {
      ReportIsRemembered(e, f);
    }
  }

  lemma ReportIsRemembered(e: Engine, f: Fill)
    requires EngineSound(e) && Reported(e, f).1.Snap?
    requires f.id !in O.ProcessedOf(e.orders, f.cid) && !OS.Terminal(e.orders.snapshots[f.cid].state)
    ensures var (w, out) := Reported(e, f);
      f.id in O.ProcessedOf(w.mem, f.cid) && f.cid in w.mem.snapshots && out.snapshot == w.mem.snapshots[f.cid]
  {
    if HasKey(e.desk.log, ForOrder(FillKey(f.cid, f.id))) {
      OH.FilledIsProcessed(e.om, e.desk.log, f.cid, f.id);
      assert false;
    }
  }

  // ---- the whole booking ----

  lemma BookFollows(d: Desk, f: Fill, terms: Terms)
    requires Sound(d)
    ensures Follows(d, Book(d, f, terms).0)
  {
    if terms.reduceOnly {
      ExitFollows(d, f);
    } else if Lookup(d.mapped, f.cid).Some? {
      IntoFollows(d, Lookup(d.mapped, f.cid).value, f);
    } else if Creates(d, f, terms.quantity) {
      CreationFollows(d, f, terms.quantity);
    } else {
      NothingCreated(d, f, terms.quantity);
    }
  }

  lemma BookHeals(d: Desk, f: Fill, terms: Terms, n: nat)
    requires Sound(d) && |d.log| <= n <= |Book(d, f, terms).0.log|
    ensures var end := Book(d, f, terms).0;
            var again := Book(Rebuilt(d, end.log[..n]), f, terms).0;
      && (!InWindow(end.log, |d.log|, n) ==> again == end)
      && (InWindow(end.log, |d.log|, n) ==> again.log != end.log)
  {
    if terms.reduceOnly {
      ExitHeals(d, f, n);
    } else {
      EntryHeals(d, f, terms.quantity, n);
    }
  }

  lemma BookOneKeeps(e: Engine, f: Fill)
    requires EngineSound(e)
    ensures EngineSound(BookOne(e, f).0)
    ensures e.desk.log <= BookOne(e, f).0.desk.log && BookOne(e, f).0.om == e.om && BookOne(e, f).0.desk.pm == e.desk.pm
  {
    var (w, out) := Reported(e, f);
    ReportAppends(e, f);
    ReportSteps(e, f);
    if out.Snap? {
      var d := e.desk.(log := w.log);
      BookFollows(d, f, out.snapshot.terms);
      OrdersStayGood(w, Book(d, f, out.snapshot.terms).0.log);
    }
  }

  /** Engines no booking can tell apart: equal desks, orders that differ at most in late fills. */
  ghost predicate SameEngine(a: Engine, b: Engine) {
    a.om == b.om && a.desk == b.desk && OR.SameView(a.orders, b.orders)
  }

  lemma BookOneAlike(a: Engine, b: Engine, f: Fill)
    requires SameEngine(a, b)
    ensures SameEngine(BookOne(a, f).0, BookOne(b, f).0) && BookOne(a, f).1 == BookOne(b, f).1
  {
    OT.FillAlike(OrderWorld(a), OrderWorld(b), f.cid, f);
  }

  lemma RestartedIsSame(e: Engine)
    requires EngineSound(e)
    ensures SameEngine(e, Restarted(e, e.desk.log))
  {
  }

  /** Behind the order ledger's record: the fill is known to the order, and the desk books on. */
  lemma BehindTheOrder(e: Engine, f: Fill, n: nat)
    requires EngineSound(e) && Reported(e, f).1.Snap?
    requires |Reported(e, f).0.log| <= n <= |BookOne(e, f).0.desk.log|
    ensures var w, end := Reported(e, f).0, BookOne(e, f).0;
            var cut := Restarted(e, end.desk.log[..n]);
      && BookOne(cut, f).0.desk == Book(cut.desk, f, Reported(e, f).1.snapshot.terms).0
      && OR.SameView(BookOne(cut, f).0.orders, w.mem)
      && cut.desk == Rebuilt(e.desk.(log := w.log), end.desk.log[..n])
  {
    var (w, out) := Reported(e, f);
    var end := BookOne(e, f).0;
    var cut := Restarted(e, end.desk.log[..n]);
    ReportAppends(e, f);
    ReportSteps(e, f);
    var d := e.desk.(log := w.log);
    BookFollows(d, f, out.snapshot.terms);
    assert OrderFree(w.log, end.desk.log[..n]);
    OrdersPassOver(e.om, w.log, end.desk.log[..n]);
    ReportAgain(e, f, cut);
  }

  lemma HealsAtStart(e: Engine, f: Fill)
    requires EngineSound(e)
    ensures var end := BookOne(e, f).0;
      && |e.desk.log| <= |end.desk.log|
      && SameEngine(BookOne(Restarted(e, end.desk.log[..|e.desk.log|]), f).0, end)
  {
    BookOneKeeps(e, f);
    assert BookOne(e, f).0.desk.log[..|e.desk.log|] == e.desk.log;
    RestartedIsSame(e);
    BookOneAlike(e, Restarted(e, e.desk.log), f);
  }

  lemma HealsBehindTheOrder(e: Engine, f: Fill, n: nat)
    requires EngineSound(e) && Reported(e, f).1.Snap? && |Reported(e, f).0.log| <= n <= |BookOne(e, f).0.desk.log|
    ensures var start, end := |Reported(e, f).0.log|, BookOne(e, f).0;
            var again := BookOne(Restarted(e, end.desk.log[..n]), f).0;
      && (!InWindow(end.desk.log, start, n) ==> SameEngine(again, end))
      && (InWindow(end.desk.log, start, n) ==> again.desk.log != end.desk.log)
  {
    var (w, out) := Reported(e, f);
    ReportSteps(e, f);
    BehindTheOrder(e, f, n);
    BookHeals(e.desk.(log := w.log), f, out.snapshot.terms, n);
  }

  /** The order ledger's own record is no window. */
  lemma OrderRecordIsCalm(e: Engine, f: Fill, n: nat)
    requires EngineSound(e) && |e.desk.log| < n <= |BookOne(e, f).0.desk.log|
    ensures Reported(e, f).1.Snap? && |Reported(e, f).0.log| <= n
    ensures var log := BookOne(e, f).0.desk.log;
            InWindow(log, |e.desk.log|, n) <==> InWindow(log, |Reported(e, f).0.log|, n)
  {
    var (w, out) := Reported(e, f);
    ReportAppends(e, f);
    ReportSteps(e, f);
    if out.Snap? && w.log != e.desk.log {
      BookFollows(e.desk.(log := w.log), f, out.snapshot.terms);
      assert BookOne(e, f).0.desk.log[|e.desk.log|] == w.log[|e.desk.log|];
    }
  }

  /**
   Crash healing of one booking, with the accumulators as they were: lose the process after
   any of the events the booking appends, rebuild everything else from the log, and book
   the fill again.  Everything ends as in the uninterrupted booking if and only if the
   cut is not between a position's creation and its mapping, nor between a close and the
   release of its margin.
   */
  lemma RebookingHeals(e: Engine, f: Fill, n: nat)
    requires EngineSound(e) && |e.desk.log| <= n <= |BookOne(e, f).0.desk.log|
    ensures var end := BookOne(e, f).0;
            var again := BookOne(Restarted(e, end.desk.log[..n]), f).0;
      && (!InWindow(end.desk.log, |e.desk.log|, n) ==> SameEngine(again, end))
      && (InWindow(end.desk.log, |e.desk.log|, n) ==> again.desk.log != end.desk.log)
  {
    if n == |e.desk.log| {
      HealsAtStart(e, f);
    } else {
      OrderRecordIsCalm(e, f, n);
      HealsBehindTheOrder(e, f, n);
    }
  }
}
