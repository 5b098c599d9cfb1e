/**
 What the window between a close and its release costs: the margin of the closed position is
 never returned, on any run, whatever happens afterwards short of a release asked for by name.
 */
module StrandedMargin {
  import opened Wrappers
  import opened EventLog
  import opened Records
  import opened Accounting
  import opened AccountingRuns
  import opened AccountingHealing
  import opened ExitHealing
  import opened CrashHealing
  import opened EngineRuns
  import opened FillTrail
  import opened SyncHealing
  import opened Sums
  import O = Orders
  import OR = OrderRuns
  import PS = PositionStates
  import P = Positions
  import PH = PositionHistory
  import L = Portfolio

  /** A dead position with at least this much margin in use, its release never asked for. */
  predicate Stranded(d: Desk, pid: string, used: real) {
    && pid in d.positions.snapshots && Dead(d.positions.snapshots[pid].state)
    && At(d.ledger.usedBy, pid) >= used && !ReleaseOver(d, pid)
  }

  // ---- what moves a position's margin ----

  predicate IsReleaseKey(key: Option<Key>, pid: string) {
    key.Some? && key.value.ForPortfolio? && key.value.portfolioKey.ReleaseKey? && key.value.portfolioKey.pid == pid
  }

  predicate Touches(e: Entry, pid: string) {
    || IsReleaseKey(e.key, pid)
    || (e.payload.Portfolio? && e.payload.portfolio == Released(pid))
    || (e.payload.Portfolio? && (e.payload.portfolio.Reserved? || e.payload.portfolio.Allocated?) && e.payload.portfolio.pid == pid)
  }

  predicate Untouched(log: Log, longer: Log, pid: string) {
    log <= longer && forall i :: |log| <= i < |longer| ==> !Touches(longer[i], pid)
  }

  lemma UntouchedOn(a: Log, b: Log, c: Log, pid: string)
    requires Untouched(a, b, pid) && Untouched(b, c, pid)
    ensures Untouched(a, c, pid)
  {
  }

  lemma {:induction false} UntouchedKeeps(log: Log, longer: Log, pid: string)
    requires Untouched(log, longer, pid)
    ensures At(L.Replay(longer).usedBy, pid) == At(L.Replay(log).usedBy, pid)
    ensures pid in L.Replay(longer).released <==> pid in L.Replay(log).released
    ensures forall x :: HasKey(longer, ForPortfolio(ReleaseKey(pid, x))) <==> HasKey(log, ForPortfolio(ReleaseKey(pid, x)))
    decreases |longer|
  {
    if |longer| == |log| {
      assert longer == log;
    } else {
      UntouchedKeeps(log, longer[..|longer| - 1], pid);
      assert !Touches(longer[|longer| - 1], pid);
    }
  }

  lemma ForeignStep(d: Desk, d': Desk, pid: string)
    requires OneStep(d, d') && (|d'.log| == |d.log| + 1 ==> !d'.log[|d.log|].payload.Portfolio?)
    ensures Untouched(d.log, d'.log, pid)
  {
  }

  /** The requests that move a position's margin. */
  predicate Moves(q: L.Request, pid: string) {
    (q.Reserve? || q.Allocate? || q.Release?) && q.pid == pid
  }

  lemma AskUntouched(d: Desk, q: L.Request, pid: string)
    requires Sound(d) && !Moves(q, pid)
    ensures Untouched(d.log, Ask(d, q).0.log, pid)
  {
    AskSteps(d, q);
  }

  lemma MarginUntouched(d: Desk, other: string, f: Fill, pid: string)
    requires Sound(d) && other != pid
    ensures Untouched(d.log, BookMargin(d, other, f).0.log, pid)
  {
    hide Untouched, Margin;
    var reserve, allocate := L.Reserve(other, Margin(d, f), f.id), L.Allocate(other, Margin(d, f), f.id);
    var d1, d2 := Ask(d, reserve).0, TakeMargin(d, other, f).0;
    MarginSteps(d, other, f);
    AskUntouched(d, reserve, pid);
    AskUntouched(d1, allocate, pid);
    AskUntouched(d2, L.BookFee(other, f.id, f.fee), pid);
    UntouchedOn(d.log, d1.log, Ask(d1, allocate).0.log, pid);
    UntouchedOn(d.log, d2.log, Ask(d2, L.BookFee(other, f.id, f.fee)).0.log, pid);
  }

  // ---- booking fills while a position is dead ----

  lemma EnterUntouched(d: Desk, other: string, f: Fill, pid: string)
    requires Sound(d) && Pending(d, other, f)
    ensures Pending(Touch(d, other, f), other, f)
    ensures var d2 := Enter(Touch(d, other, f), other, f); Sound(d2) && Untouched(d.log, d2.log, pid)
  {
    var d1 := Touch(d, other, f);
    TouchSteps(d, other, f);
    EnterSteps(d1, other, f);
    ForeignStep(d, d1, pid);
    ForeignStep(d1, Enter(d1, other, f), pid);
    UntouchedOn(d.log, d1.log, Enter(d1, other, f).log, pid);
  }

  lemma Reflexive(log: Log, pid: string)
    ensures Untouched(log, log, pid)
  {
  }

  lemma IntoUntouched(d: Desk, other: string, f: Fill, pid: string)
    requires Sound(d) && DeadAt(d, pid)
    ensures Untouched(d.log, BookInto(d, other, f).0.log, pid)
  {
    hide BookMargin, BookInto, Untouched, Enter, Touch;
    Reflexive(d.log, pid);
    if Pending(d, other, f) {
      EnterUntouched(d, other, f, pid);
      var d2 := Enter(Touch(d, other, f), other, f);
      PendingFillBooks(d, other, f);
      MarginUntouched(d2, other, f, pid);
      UntouchedOn(d.log, d2.log, BookMargin(d2, other, f).0.log, pid);
    } else if other in d.positions.snapshots && f.id in P.ProcessedOf(d.positions, other) {
      TakenFillBooksMargin(d, other, f);
      if other != pid {
        MarginUntouched(d, other, f, pid);
      }
    } else {
      UntakenFillStops(d, other, f);
    }
  }

  predicate DeadAt(d: Desk, pid: string) {
    pid in d.positions.snapshots && Dead(d.positions.snapshots[pid].state)
  }

  lemma CreationUntouched(d: Desk, f: Fill, intended: real, pid: string)
    requires Sound(d) && DeadAt(d, pid) && Creates(d, f, intended)
    ensures Untouched(d.log, BookEntry(d, f, intended).0.log, pid)
  {
    assert f.cid in d.levels;
    hide BookInto, BookEntry, Distance, Untouched, MapOrder, Create;
    var dc := Create(d, f, intended);
    var dm := MapOrder(dc, f.cid, NewPid(d));
    CreationBooks(d, f, intended);
    CreatedIsPosition(d, f, intended);
    ForeignStep(d, dc, pid);
    ForeignStep(dc, dm, pid);
    UntouchedOn(d.log, dc.log, dm.log, pid);
    LaterDesk(d, dc, f.cid, pid);
    LaterDesk(dc, dm, f.cid, pid);
    IntoUntouched(dm, NewPid(d), f, pid);
    UntouchedOn(d.log, dm.log, BookEntry(d, f, intended).0.log, pid);
  }

  lemma CreatedIsPosition(d: Desk, f: Fill, intended: real)
    requires Sound(d) && Creates(d, f, intended)
    ensures |Create(d, f, intended).log| == |d.log| + 1 && Create(d, f, intended).log[|d.log|].payload.Position?
    ensures Create(d, f, intended).log[|d.log|].payload.position.Created?
  {
    CreateSteps(d, TermsFor(f, intended, d.levels[f.cid]));
  }

  lemma EntryUntouched(d: Desk, f: Fill, intended: real, pid: string)
    requires Sound(d) && DeadAt(d, pid)
    ensures Untouched(d.log, BookEntry(d, f, intended).0.log, pid)
  {
    hide Creates, Untouched, BookInto;
    if Lookup(d.mapped, f.cid).Some? {
      IntoUntouched(d, Lookup(d.mapped, f.cid).value, f, pid);
    } else if Creates(d, f, intended) {
      CreationUntouched(d, f, intended, pid);
    } else {
      NothingCreated(d, f, intended);
      Reflexive(d.log, pid);
    }
  }

  lemma FinishUntouched(x: Desk, other: string, f: Fill, pid: string)
    requires Sound(x) && other in x.positions.snapshots && !Dead(x.positions.snapshots[other].state) && other != pid
    ensures Untouched(x.log, Finish(x, other, f).0.log, pid)
  {
    var y := Closed(x, other, f);
    FinishSteps(x, other, f);
    ForeignStep(x, y, pid);
    AskUntouched(y, L.Release(other, "close:" + other), pid);
    UntouchedOn(x.log, y.log, Ask(y, L.Release(other, "close:" + other)).0.log, pid);
  }

  lemma TrancheUntouched(d: Desk, other: string, f: Fill, pid: string)
    requires Sound(d) && other in d.positions.snapshots
    ensures Untouched(d.log, Tranche(d, other, f).log, pid)
  {
    var s := d.positions.snapshots[other];
    TrancheSteps(d, other, f);
    if s.avg.Some? {
      AskUntouched(d, L.BookPnl(other, f.id, Realized(s.terms.side, s.avg.value, f)), pid);
    }
  }

  lemma CloseUntouched(d: Desk, other: string, f: Fill, pid: string)
    requires Sound(d) && DeadAt(d, pid)
    ensures Untouched(d.log, CloseInto(d, other, f).0.log, pid)
  {
    hide Finish, Untouched, BookPnl;
    Reflexive(d.log, pid);
    if other in d.positions.snapshots {
      var x := Tranche(d, other, f);
      TrancheUntouched(d, other, f, pid);
      TrancheSteps(d, other, f);
      if Completes(d, other, f) {
        FinishUntouched(x, other, f, pid);
        UntouchedOn(d.log, x.log, Finish(x, other, f).0.log, pid);
      }
    }
  }

  lemma BookUntouched(d: Desk, f: Fill, terms: Terms, pid: string)
    requires Sound(d) && DeadAt(d, pid)
    ensures Untouched(d.log, Book(d, f, terms).0.log, pid)
  {
    hide CloseInto, BookEntry, FindOpen, Untouched;
    Reflexive(d.log, pid);
    if terms.reduceOnly {
      AttributedSteps(d, f);
      if Target(d, f).Some? {
        AttributionUntouched(d, f, pid);
        CloseUntouched(Attributed(d, f), Target(d, f).value, f, pid);
        UntouchedOn(d.log, Attributed(d, f).log, BookExit(d, f).0.log, pid);
      }
    } else {
      EntryUntouched(d, f, terms.quantity, pid);
    }
  }

  lemma AttributionUntouched(d: Desk, f: Fill, pid: string)
    requires Sound(d) && Target(d, f).Some?
    ensures Untouched(d.log, Attributed(d, f).log, pid) && Attributed(d, f).positions == d.positions
  {
    AttributedSteps(d, f);
    if Lookup(d.mapped, f.cid).None? {
      MapSteps(d, f.cid, Target(d, f).value);
    }
    ForeignStep(d, Attributed(d, f), pid);
  }

  lemma ReportUntouched(e: Engine, f: Fill, pid: string)
    requires EngineSound(e)
    ensures Untouched(e.desk.log, Reported(e, f).0.log, pid)
  {
    ReportAppends(e, f);
  }

  lemma BookOneUntouched(e: Engine, f: Fill, pid: string)
    requires EngineSound(e) && DeadAt(e.desk, pid)
    ensures Untouched(e.desk.log, BookOne(e, f).0.desk.log, pid)
  {
    hide Book, Untouched;
    ReportAppends(e, f);
    ReportSteps(e, f);
    ReportUntouched(e, f, pid);
    Reflexive(e.desk.log, pid);
    var (w, out) := Reported(e, f);
    if out.Snap? {
      BookOneIsReportThenBook(e, f);
      BookUntouched(e.desk.(log := w.log), f, out.snapshot.terms, pid);
      UntouchedOn(e.desk.log, w.log, BookOne(e, f).0.desk.log, pid);
    }
  }

  lemma {:induction false} PassUntouched(e: Engine, fills: seq<Fill>, pid: string)
    requires EngineSound(e) && DeadAt(e.desk, pid)
    ensures Untouched(e.desk.log, BookAll(e, fills).0.desk.log, pid)
  {
    hide BookOne, Untouched;
    if fills == [] {
      Reflexive(e.desk.log, pid);
    } else {
      var front, f := fills[..|fills| - 1], fills[|fills| - 1];
      var mid := BookAll(e, front).0;
      PassUntouched(e, front, pid);
      BookAllKeeps(e, front);
      LaterDesk(e.desk, mid.desk, "", pid);
      BookOneUntouched(mid, f, pid);
      UntouchedOn(e.desk.log, mid.desk.log, BookOne(mid, f).0.desk.log, pid);
    }
  }

  // ---- whole runs ----

  lemma TradeUntouched(e: Engine, call: O.Call, pid: string)
    requires EngineSound(e)
    ensures Untouched(e.desk.log, Do(e, Trade(call)).desk.log, pid)
  {
    var w0 := OrderWorld(e);
    TradeIsKept(w0);
    OR.DoKeeps(w => TradedFrom(w0, w), w0, call);
  }

  lemma {:induction false} LevelsUntouched(d: Desk, xs: seq<Execution>, pid: string)
    requires Sound(d)
    ensures Untouched(d.log, RecordAllLevels(d, xs).log, pid)
  {
    if xs == [] {
      Reflexive(d.log, pid);
    } else {
      var d1 := RecordAllLevels(d, xs[..|xs| - 1]);
      LevelsUntouched(d, xs[..|xs| - 1], pid);
      LevelsFollow(d, xs[..|xs| - 1]);
      RecordLevelsSteps(d1, xs[|xs| - 1]);
      UntouchedOn(d.log, d1.log, RecordAllLevels(d, xs).log, pid);
    }
  }

  /** A request asks for the release of this position by name. */
  predicate Releases(s: Step, pid: string) {
    s.Request? && s.request.Release? && s.request.pid == pid
  }

  /** Stranded, read off the log alone. */
  ghost predicate StrandedOn(pm: string, log: Log, pid: string, used: real) {
    && LogSound(pm, log) && DeadOn(log, pid) && At(L.Replay(log).usedBy, pid) >= used
    && pid !in L.Replay(log).released && !HasKey(log, ForPortfolio(ReleaseKey(pid, "close:" + pid)))
  }

  lemma StrandedAtCut(pm: string, log: Log, longer: Log, n: nat, pid: string, used: real)
    requires StrandedOn(pm, log, pid, used) && LogSound(pm, longer) && Untouched(log, longer, pid) && |log| <= n <= |longer|
    ensures StrandedOn(pm, longer[..n], pid, used)
  {
    LogSoundPrefix(pm, longer, n);
    assert longer[..n][..|log|] == log;
    assert Untouched(log, longer[..n], pid);
    UntouchedKeeps(log, longer[..n], pid);
    DeadForGood(pm, longer[..n], |log|, pid);
  }

  lemma RequestStrands(d: Desk, q: L.Request, pid: string, used: real)
    requires Sound(d) && StrandedOn(d.pm, d.log, pid, used) && !(q.Release? && q.pid == pid)
    ensures StrandedOn(d.pm, Ask(d, q).0.log, pid, used)
  {
    AskSteps(d, q);
    var log := Ask(d, q).0.log;
    if log != d.log {
      assert log[..|log| - 1] == d.log;
      assert L.AmountOk(q);
    }
  }

  /** Wherever a step is cut, the position stays stranded on what is left of the log. */
  lemma StepStrands(e: Engine, s: Step, n: nat, pid: string, used: real)
    requires EngineSound(e) && StrandedOn(e.desk.pm, e.desk.log, pid, used) && !Releases(s, pid)
    requires |e.desk.log| <= n <= |Do(e, s).desk.log|
    ensures StrandedOn(e.desk.pm, Do(e, s).desk.log[..n], pid, used)
  {
    hide Untouched, LogSound, RecordAllLevels, BookAll, Ask, O.Do, StrandedOn, EngineSound, Sound;
    DoKeeps(e, s);
    DoKeepsNames(e, s);
    var log := Do(e, s).desk.log;
    SoundLog(Do(e, s));
    SoundLog(e);
    match s
    case Trade(call) =>
      TradeUntouched(e, call, pid);
      StrandedAtCut(e.desk.pm, e.desk.log, log, n, pid, used);
    case Execute(xs) =>
      LevelsUntouched(e.desk, xs, pid);
      StrandedAtCut(e.desk.pm, e.desk.log, log, n, pid, used);
    case SyncFills(fetched) =>
      DeadThere(e, pid, used);
      if fetched.Answer? {
        PassUntouched(e, fetched.value, pid);
      } else {
        Reflexive(e.desk.log, pid);
      }
      StrandedAtCut(e.desk.pm, e.desk.log, log, n, pid, used);
    case Request(q) =>
      AskSteps(e.desk, q);
      RequestStrands(e.desk, q, pid, used);
      assert log[..|log|] == log && log[..|e.desk.log|] == e.desk.log;
  }

  lemma SoundLog(e: Engine)
    requires EngineSound(e)
    ensures Sound(e.desk) && LogSound(e.desk.pm, e.desk.log)
  {
  }

  lemma DeadThere(e: Engine, pid: string, used: real)
    requires EngineSound(e) && StrandedOn(e.desk.pm, e.desk.log, pid, used)
    ensures DeadAt(e.desk, pid)
  {
  }

  /**
   Stranded for good: on any run of orders, passes over any fills, requests other than a
   release of this very position, restarts and crashes, the margin stays where it is.
   */
  lemma {:induction false} StrandedForGood(e: Engine, actions: seq<Action>, pid: string, used: real)
    requires EngineSound(e) && Stranded(e.desk, pid, used)
    requires forall i :: 0 <= i < |actions| ==> !Releases(actions[i].step, pid)
    ensures EngineSound(Run(e, actions)) && Stranded(Run(e, actions).desk, pid, used)
  {
    if actions != [] {
      var front, a := actions[..|actions| - 1], actions[|actions| - 1];
      StrandedForGood(e, front, pid, used);
      ActStrands(Run(e, front), a, pid, used);
    }
  }

  lemma StrandedIsOnLog(e: Engine, pid: string, used: real)
    requires EngineSound(e)
    ensures Stranded(e.desk, pid, used) <==> StrandedOn(e.desk.pm, e.desk.log, pid, used)
  {
  }

  lemma ActStrands(e: Engine, a: Action, pid: string, used: real)
    requires EngineSound(e) && Stranded(e.desk, pid, used) && !Releases(a.step, pid)
    ensures EngineSound(Act(e, a)) && Stranded(Act(e, a).desk, pid, used)
  {
    hide Do, Stranded, StrandedOn, EngineSound;
    DoKeeps(e, a.step);
    DoKeepsNames(e, a.step);
    StrandedIsOnLog(e, pid, used);
    var after := Do(e, a.step);
    var n := if a.CrashDuring? && |e.desk.log| + a.persisted <= |after.desk.log| then |e.desk.log| + a.persisted else |after.desk.log|;
    StepStrands(e, a.step, n, pid, used);
    if a.CrashDuring? {
      NewProcessIsSound(e, after, n);
    } else {
      assert after.desk.log[..n] == after.desk.log;
    }
    StrandedIsOnLog(Act(e, a), pid, used);
  }

  lemma NewProcessIsSound(e: Engine, after: Engine, n: nat)
    requires EngineSound(after) && after.om == e.om && after.desk.pm == e.desk.pm && n <= |after.desk.log|
    ensures EngineSound(NewProcess(e, after.desk.log[..n])) && NewProcess(e, after.desk.log[..n]).desk.log == after.desk.log[..n]
    ensures NewProcess(e, after.desk.log[..n]).desk.pm == e.desk.pm
  {
    RestartKeeps(e.(desk := e.desk.(closed := map[], counted := {})), after.desk.log, n);
  }

  // ---- how it comes about ----

  /** Before the close nothing of a booking has touched the position's margin. */
  lemma CloseComesAlone(d: Desk, other: string, f: Fill, n: nat, pid: string)
    requires Sound(d) && |d.log| < n <= |CloseInto(d, other, f).0.log| && EndsInClose(CloseInto(d, other, f).0.log[..n], pid)
    ensures Untouched(d.log, CloseInto(d, other, f).0.log[..n], pid) && DeadOn(CloseInto(d, other, f).0.log[..n], pid)
  {
    hide BookPnl, Finish;
    var x := Tranche(d, other, f);
    var y, end := Closed(x, other, f), CloseInto(d, other, f).0;
    TrancheSteps(d, other, f);
    TrancheUntouched(d, other, f, pid);
    assert end.log[n - 1] == end.log[..n][n - 1];
    FinishSteps(x, other, f);
    assert n == |y.log| && end.log[..n] == y.log;
    ClosePersists(x, other, f);
    ForeignStep(x, y, pid);
    UntouchedOn(d.log, x.log, y.log, pid);
    CloseOf(x, other, f, pid);
  }

  lemma CloseOf(x: Desk, other: string, f: Fill, pid: string)
    requires Sound(x) && Closable(x, other, f) && EndsInClose(Closed(x, other, f).log, pid)
    ensures DeadOn(Closed(x, other, f).log, pid)
  {
    ClosePersists(x, other, f);
    var y := Closed(x, other, f);
    PH.ProperPrefix(y.pm, y.log, |x.log|);
    ClosedByLast(y.pm, y.log, pid);
  }

  lemma ClosedByLast(pm: string, log: Log, pid: string)
    requires PH.Proper(pm, log) && EndsInClose(log, pid) && log[|log| - 1].payload.position.trigger == PS.Close
    ensures DeadOn(log, pid)
  {
  }

  /** An entry booking closes nothing. */
  lemma IntoClosesNothing(d: Desk, other: string, f: Fill, n: nat, pid: string)
    requires Sound(d) && |d.log| < n <= |BookInto(d, other, f).0.log|
    ensures !IsClose(BookInto(d, other, f).0.log[n - 1], pid)
  {
    IntoIsCalm(d, other, f);
  }

  lemma EntryClosesNothing(d: Desk, f: Fill, intended: real, n: nat, pid: string)
    requires Sound(d) && |d.log| < n <= |BookEntry(d, f, intended).0.log|
    ensures !IsClose(BookEntry(d, f, intended).0.log[n - 1], pid)
  {
    assert Creates(d, f, intended) ==> f.cid in d.levels;
    hide BookInto, BookEntry, Create, MapOrder, Rebuilt, Creates, LogSound;
    if Lookup(d.mapped, f.cid).Some? {
      MappedIsInto(d, f, intended);
      IntoClosesNothing(d, Lookup(d.mapped, f.cid).value, f, n, pid);
    } else if Creates(d, f, intended) {
      CreationBooks(d, f, intended);
      CreatedIsPosition(d, f, intended);
      var dm := MapOrder(Create(d, f, intended), f.cid, NewPid(d));
      IntoFollows(dm, NewPid(d), f);
      assert forall i :: 0 <= i < |dm.log| ==> BookEntry(d, f, intended).0.log[i] == dm.log[i];
      assert dm.log[|d.log|] == Create(d, f, intended).log[|d.log|];
      if n > |dm.log| {
        IntoClosesNothing(dm, NewPid(d), f, n, pid);
      }
    } else {
      NothingCreated(d, f, intended);
    }
  }

  lemma MappedIsInto(d: Desk, f: Fill, intended: real)
    requires Lookup(d.mapped, f.cid).Some?
    ensures BookEntry(d, f, intended) == BookInto(d, Lookup(d.mapped, f.cid).value, f)
  {
  }

  lemma BookCloses(d: Desk, f: Fill, terms: Terms, n: nat, pid: string)
    requires Sound(d) && |d.log| < n <= |Book(d, f, terms).0.log| && EndsInClose(Book(d, f, terms).0.log[..n], pid)
    ensures Untouched(d.log, Book(d, f, terms).0.log[..n], pid) && DeadOn(Book(d, f, terms).0.log[..n], pid)
  {
    hide CloseInto, BookEntry, FindOpen, Untouched;
    var end := Book(d, f, terms).0;
    assert end.log[..n][n - 1] == end.log[n - 1];
    if terms.reduceOnly {
      AttributedSteps(d, f);
      var dm := Attributed(d, f);
      AttributionUntouched(d, f, pid);
      CloseFollows(dm, Target(d, f).value, f);
      assert n > |dm.log|;
      CloseComesAlone(dm, Target(d, f).value, f, n, pid);
      UntouchedOn(d.log, dm.log, end.log[..n], pid);
    } else {
      EntryClosesNothing(d, f, terms.quantity, n, pid);
      assert false;
    }
  }

  /**
   A crash between the close and the release strands the margin: a process that starts on a
   log cut right behind the close finds the position dead, with all the margin it had
   before the booking.
   */
  lemma WindowStrands(e: Engine, f: Fill, n: nat, pid: string)
    requires EngineSound(e) && |e.desk.log| < n <= |BookOne(e, f).0.desk.log| && !ReleaseOver(e.desk, pid)
    requires EndsInClose(BookOne(e, f).0.desk.log[..n], pid)
    ensures Stranded(NewProcess(e, BookOne(e, f).0.desk.log[..n]).desk, pid, At(e.desk.ledger.usedBy, pid))
    ensures EngineSound(NewProcess(e, BookOne(e, f).0.desk.log[..n]))
  {
    hide BookOne, Untouched, ReleaseOver, EndsInClose;
    var cut := BookOne(e, f).0.desk.log[..n];
    CutBehindClose(e, f, n, pid);
    UntouchedKeeps(e.desk.log, cut, pid);
    NewProcessIsSound(e, BookOne(e, f).0, n);
    StrandedBehind(e, NewProcess(e, cut), pid);
  }

  lemma StrandedBehind(e: Engine, died: Engine, pid: string)
    requires EngineSound(e) && EngineSound(died) && DeadOn(died.desk.log, pid) && !ReleaseOver(e.desk, pid)
    requires var log := died.desk.log;
      && At(L.Replay(log).usedBy, pid) == At(L.Replay(e.desk.log).usedBy, pid)
      && (pid in L.Replay(log).released <==> pid in L.Replay(e.desk.log).released)
      && (forall x :: HasKey(log, ForPortfolio(ReleaseKey(pid, x))) <==> HasKey(e.desk.log, ForPortfolio(ReleaseKey(pid, x))))
    ensures Stranded(died.desk, pid, At(e.desk.ledger.usedBy, pid))
  {
  }

  lemma CutBehindClose(e: Engine, f: Fill, n: nat, pid: string)
    requires EngineSound(e) && |e.desk.log| < n <= |BookOne(e, f).0.desk.log| && EndsInClose(BookOne(e, f).0.desk.log[..n], pid)
    ensures var cut := BookOne(e, f).0.desk.log[..n]; Untouched(e.desk.log, cut, pid) && DeadOn(cut, pid)
    ensures EngineSound(BookOne(e, f).0) && BookOne(e, f).0.om == e.om && BookOne(e, f).0.desk.pm == e.desk.pm
  {
    hide Book, Untouched, EndsInClose, O.ReportFill, DeadOn;
    var cut := BookOne(e, f).0.desk.log[..n];
    var (w, out) := Reported(e, f);
    OrderRecordIsCalm(e, f, n);
    BookOneIsReportThenBook(e, f);
    ReportSteps(e, f);
    ReportUntouched(e, f, pid);
    CloseIsNoOrder(e, f, n, pid);
    BookCloses(e.desk.(log := w.log), f, out.snapshot.terms, n, pid);
    UntouchedOn(e.desk.log, w.log, cut, pid);
    BookOneKeeps(e, f);
  }

  lemma CloseIsNoOrder(e: Engine, f: Fill, n: nat, pid: string)
    requires EngineSound(e) && |e.desk.log| < n <= |BookOne(e, f).0.desk.log| && EndsInClose(BookOne(e, f).0.desk.log[..n], pid)
    requires Reported(e, f).1.Snap? && |Reported(e, f).0.log| <= n
    ensures |Reported(e, f).0.log| < n
  {
    var (w, out) := Reported(e, f);
    ReportAppends(e, f);
    ReportSteps(e, f);
    BookFollows(e.desk.(log := w.log), f, out.snapshot.terms);
    var end := BookOne(e, f).0.desk.log;
    assert end[..n][n - 1] == end[n - 1];
    assert w.log <= end;
  }
}
