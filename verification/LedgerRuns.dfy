/**
 The portfolio ledger inside the engine: whatever the bookings, the orders and the requests
 of a run do, and wherever it crashes, the ledger on the log stays balanced.
 */
module LedgerRuns {
  import opened Records
  import opened Accounting
  import opened AccountingRuns
  import opened AccountingHealing
  import opened ExitHealing
  import opened CrashHealing
  import opened EngineRuns
  import O = Orders
  import OR = OrderRuns
  import P = Positions
  import L = Portfolio

  /** Every portfolio record sits under a key of its own kind, and the ledger balances behind each. */
  ghost predicate LedgerProper(log: Log) {
    log == [] ||
    var front, e := log[..|log| - 1], log[|log| - 1];
    LedgerProper(front) && L.EntryFits(e) && L.Balanced(L.Replay(log))
  }

  lemma {:induction false} ProperIsGood(log: Log)
    requires LedgerProper(log)
    ensures L.Keyed(log) && L.Balanced(L.Replay(log))
  {
    hide L.Balanced;
    if log != [] {
      ProperIsGood(log[..|log| - 1]);
    } else {
      L.EmptyIsBalanced(L.Replay(log));
    }
  }

  lemma {:induction false} LedgerPrefix(log: Log, n: nat)
    requires LedgerProper(log) && n <= |log|
    ensures LedgerProper(log[..n])
    decreases |log|
  {
    if n == |log| {
      assert log[..n] == log;
    } else {
      assert log[..|log| - 1][..n] == log[..n];
      LedgerPrefix(log[..|log| - 1], n);
    }
  }

  /** Nothing but portfolio records is the ledger's business. */
  ghost predicate LedgerFree(log: Log, longer: Log) {
    log <= longer && forall i :: |log| <= i < |longer| ==> !longer[i].payload.Portfolio? && SameSource(longer[i].key, longer[i].payload)
  }

  lemma {:induction false} LedgerPassesOver(log: Log, longer: Log)
    requires LedgerProper(log) && LedgerFree(log, longer)
    ensures LedgerProper(longer)
    decreases |longer|
  {
    hide L.Balanced;
    if |longer| > |log| {
      var front := longer[..|longer| - 1];
      LedgerPassesOver(log, front);
      ProperIsGood(front);
    } else {
      assert longer == log;
    }
  }

  lemma AskKeepsLedger(d: Desk, q: L.Request)
    requires Sound(d) && LedgerProper(d.log)
    ensures LedgerProper(Ask(d, q).0.log)
  {
    ProperIsGood(d.log);
    L.HandleKeeps(L.World(d.ledger, d.log), q);
    AskSteps(d, q);
    hide L.Balanced, L.Handle;
    var log := Ask(d, q).0.log;
    if log != d.log {
      assert log[..|log| - 1] == d.log;
    }
  }

  lemma OneOther(d: Desk, d': Desk)
    requires LedgerProper(d.log) && OneStep(d, d') && (d'.log != d.log ==> !d'.log[|d.log|].payload.Portfolio?)
    ensures LedgerProper(d'.log)
  {
    LedgerPassesOver(d.log, d'.log);
  }

  // ---- bookings ----

  lemma FeeKeepsLedger(d: Desk, pid: string, f: Fill)
    requires Sound(d) && LedgerProper(d.log)
    ensures LedgerProper(BookFee(d, pid, f).log)
  {
    AskKeepsLedger(d, L.BookFee(pid, f.id, f.fee));
  }

  lemma MarginKeepsLedger(d: Desk, pid: string, f: Fill)
    requires Sound(d) && LedgerProper(d.log)
    ensures LedgerProper(BookMargin(d, pid, f).0.log)
  {
    var reserve, allocate := L.Reserve(pid, Margin(d, f), f.id), L.Allocate(pid, Margin(d, f), f.id);
    MarginSteps(d, pid, f);
    AskKeepsLedger(d, reserve);
    AskKeepsLedger(Ask(d, reserve).0, allocate);
    FeeKeepsLedger(TakeMargin(d, pid, f).0, pid, f);
    hide Ask, Margin, BookFee, Sound, LedgerProper;
  }

  lemma IntoKeepsLedger(d: Desk, pid: string, f: Fill)
    requires Sound(d) && LedgerProper(d.log)
    ensures LedgerProper(BookInto(d, pid, f).0.log)
  {
    hide BookMargin, Ask, LedgerProper;
    if Pending(d, pid, f) {
      PendingFillBooks(d, pid, f);
      TouchSteps(d, pid, f);
      var d1 := Touch(d, pid, f);
      EnterSteps(d1, pid, f);
      OneOther(d, d1);
      OneOther(d1, Enter(d1, pid, f));
      MarginKeepsLedger(Enter(d1, pid, f), pid, f);
    } else if pid in d.positions.snapshots && f.id in P.ProcessedOf(d.positions, pid) {
      TakenFillBooksMargin(d, pid, f);
      MarginKeepsLedger(d, pid, f);
    } else {
      UntakenFillStops(d, pid, f);
    }
  }

  lemma EntryKeepsLedger(d: Desk, f: Fill, intended: real)
    requires Sound(d) && LedgerProper(d.log)
    ensures LedgerProper(BookEntry(d, f, intended).0.log)
  {
    hide BookInto, LedgerProper;
    if Lookup(d.mapped, f.cid).Some? {
      IntoKeepsLedger(d, Lookup(d.mapped, f.cid).value, f);
    } else if Creates(d, f, intended) {
      CreationBooks(d, f, intended);
      var dc := Create(d, f, intended);
      var dm := MapOrder(dc, f.cid, NewPid(d));
      OneOther(d, dc);
      OneOther(dc, dm);
      IntoKeepsLedger(dm, NewPid(d), f);
    } else {
      NothingCreated(d, f, intended);
    }
  }

  lemma TrancheKeepsLedger(d: Desk, pid: string, f: Fill)
    requires Sound(d) && LedgerProper(d.log) && pid in d.positions.snapshots
    ensures LedgerProper(Tranche(d, pid, f).log)
  {
    var s := d.positions.snapshots[pid];
    TrancheSteps(d, pid, f);
    if s.avg.Some? {
      AskKeepsLedger(d, L.BookPnl(pid, f.id, Realized(s.terms.side, s.avg.value, f)));
    }
    hide LedgerProper, Ask, Realized, Count;
  }

  lemma FinishKeepsLedger(x: Desk, pid: string, f: Fill)
    requires Sound(x) && LedgerProper(x.log) && pid in x.positions.snapshots && !Dead(x.positions.snapshots[pid].state)
    ensures LedgerProper(Finish(x, pid, f).0.log)
  {
    var y := Closed(x, pid, f);
    FinishSteps(x, pid, f);
    OneOther(x, y);
    AskKeepsLedger(y, L.Release(pid, "close:" + pid));
    hide LedgerProper, Ask, Closable, Sound;
  }

  lemma CloseKeepsLedger(d: Desk, pid: string, f: Fill)
    requires Sound(d) && LedgerProper(d.log)
    ensures LedgerProper(CloseInto(d, pid, f).0.log)
  {
    hide LedgerProper, Finish;
    if pid in d.positions.snapshots {
      TrancheSteps(d, pid, f);
      TrancheKeepsLedger(d, pid, f);
      if Completes(d, pid, f) {
        CompletesByFinish(d, pid, f);
        FinishKeepsLedger(Tranche(d, pid, f), pid, f);
      }
    }
  }

  lemma BookKeepsLedger(d: Desk, f: Fill, terms: Terms)
    requires Sound(d) && LedgerProper(d.log)
    ensures LedgerProper(Book(d, f, terms).0.log)
  {
    hide LedgerProper, BookEntry, CloseInto, FindOpen;
    if terms.reduceOnly {
      AttributedSteps(d, f);
      if Target(d, f).Some? {
        AttributionIsOther(d, f);
        OneOther(d, Attributed(d, f));
        CloseKeepsLedger(Attributed(d, f), Target(d, f).value, f);
      }
    } else {
      EntryKeepsLedger(d, f, terms.quantity);
    }
  }

  lemma AttributionIsOther(d: Desk, f: Fill)
    requires Sound(d)
    ensures Attributed(d, f).log != d.log ==> |Attributed(d, f).log| > |d.log| && !Attributed(d, f).log[|d.log|].payload.Portfolio?
  {
    if Lookup(d.mapped, f.cid).None? && Target(d, f).Some? {
      MapSteps(d, f.cid, Target(d, f).value);
    }
  }

  lemma BookOneKeepsLedger(e: Engine, f: Fill)
    requires EngineSound(e) && LedgerProper(e.desk.log)
    ensures LedgerProper(BookOne(e, f).0.desk.log)
  {
    hide LedgerProper, Book, O.ReportFill;
    var (w, out) := Reported(e, f);
    ReportAppends(e, f);
    ReportSteps(e, f);
    LedgerPassesOver(e.desk.log, w.log);
    if out.Snap? {
      BookKeepsLedger(e.desk.(log := w.log), f, out.snapshot.terms);
    }
  }

  lemma {:induction false} BookAllKeepsLedger(e: Engine, fills: seq<Fill>)
    requires EngineSound(e) && LedgerProper(e.desk.log)
    ensures LedgerProper(BookAll(e, fills).0.desk.log)
  {
    hide LedgerProper, BookOne;
    if fills != [] {
      var front := fills[..|fills| - 1];
      BookAllKeepsLedger(e, front);
      BookAllKeeps(e, front);
      BookOneKeepsLedger(BookAll(e, front).0, fills[|fills| - 1]);
    }
  }

  // ---- runs ----

  lemma {:induction false} LevelsKeepLedger(d: Desk, xs: seq<Execution>)
    requires Sound(d) && LedgerProper(d.log)
    ensures LedgerProper(RecordAllLevels(d, xs).log)
  {
    if xs != [] {
      var d1 := RecordAllLevels(d, xs[..|xs| - 1]);
      LevelsKeepLedger(d, xs[..|xs| - 1]);
      LevelsFollow(d, xs[..|xs| - 1]);
      RecordLevelsSteps(d1, xs[|xs| - 1]);
      LevelsAreOther(d1, xs[|xs| - 1]);
      OneOther(d1, RecordLevels(d1, xs[|xs| - 1]));
    }
  }

  lemma LevelsAreOther(d: Desk, x: Execution)
    ensures var d' := RecordLevels(d, x); d'.log != d.log ==> |d'.log| > |d.log| && !d'.log[|d.log|].payload.Portfolio?
  {
  }

  lemma TradeKeepsLedger(e: Engine, call: O.Call)
    requires EngineSound(e) && LedgerProper(e.desk.log)
    ensures LedgerProper(Do(e, Trade(call)).desk.log)
  {
    var w0 := OrderWorld(e);
    TradeIsKept(w0);
    OR.DoKeeps(w => TradedFrom(w0, w), w0, call);
    LedgerPassesOver(e.desk.log, O.Do(w0, call).0.log);
  }

  lemma DoKeepsLedger(e: Engine, s: Step)
    requires EngineSound(e) && LedgerProper(e.desk.log)
    ensures LedgerProper(Do(e, s).desk.log)
  {
    hide LedgerProper, BookAll, Ask;
    match s
    case Trade(call) => TradeKeepsLedger(e, call);
    case Execute(xs) => LevelsKeepLedger(e.desk, xs);
    case SyncFills(fetched) =>
      if fetched.Answer? {
        BookAllKeepsLedger(e, fetched.value);
      }
    case Request(q) => AskKeepsLedger(e.desk, q);
  }

  /**
   Over every run of the engine, crashes after any event included, the ledger in memory is
   the one the log replays to; its assets equal its equity, reserved and used margin are
   the sums over the positions with nothing negative among them, and the open positions
   are those with margin in use.
   */
  lemma {:induction false} RunIsBalanced(om: string, pm: string, leverage: Leverage, actions: seq<Action>)
    ensures var e := Run(Empty(om, pm, leverage), actions);
      EngineSound(e) && LedgerProper(e.desk.log) && e.desk.ledger == L.Replay(e.desk.log) && L.Balanced(e.desk.ledger)
  {
    hide L.Balanced, LedgerProper, Do;
    var end := Run(Empty(om, pm, leverage), actions);
    RunIsSound(om, pm, leverage, actions);
    if actions != [] {
      var e, a := Run(Empty(om, pm, leverage), actions[..|actions| - 1]), actions[|actions| - 1];
      RunIsBalanced(om, pm, leverage, actions[..|actions| - 1]);
      DoKeepsLedger(e, a.step);
      DoKeeps(e, a.step);
      if a.CrashDuring? {
        var log := Do(e, a.step).desk.log;
        LedgerPrefix(log, if |e.desk.log| + a.persisted <= |log| then |e.desk.log| + a.persisted else |log|);
      }
    } else {
      EmptyLogIsProper(end.desk.log);
    }
    ProperIsGood(end.desk.log);
  }

  lemma EmptyLogIsProper(log: Log)
    requires log == []
    ensures LedgerProper(log)
  {
  }
}
