/**
 A crash while one fill is being booked: cut the log after any of the events the booking
 appends, start a new process, and book the fill again.
 */
module AccountingHealing {
  import opened Wrappers
  import opened EventLog
  import opened Records
  import opened Accounting
  import opened AccountingRuns
  import PS = PositionStates
  import P = Positions
  import L = Portfolio

  // ---- requests to the ledger ----

  lemma AskAgain(d: Desk, q: L.Request)
    requires L.AmountOk(q) && HasKey(d.log, ForPortfolio(L.KeyOf(q)))
    ensures Ask(d, q) == (d, L.Done)
  {
  }

  lemma DoneIsOnLog(d: Desk, q: L.Request)
    requires Sound(d) && Ask(d, q).1.Done? && !q.Release?
    ensures L.AmountOk(q) && HasKey(Ask(d, q).0.log, ForPortfolio(L.KeyOf(q)))
  {
    AppendedKeepsOrder(d.log, Some(ForPortfolio(L.KeyOf(q))), Portfolio(L.RecordOf(q)));
  }

  lemma RefusedChangesNothing(d: Desk, q: L.Request)
    requires Ask(d, q).1.Refused?
    ensures Ask(d, q).0 == d
  {
  }

  /** Asking for another key leaves a key free. */
  lemma KeyStaysFree(d: Desk, q: L.Request, key: PortfolioKey)
    requires Sound(d) && key != L.KeyOf(q) && !HasKey(d.log, ForPortfolio(key))
    ensures !HasKey(Ask(d, q).0.log, ForPortfolio(key))
  {
    AskSteps(d, q);
    var after := Ask(d, q).0.log;
    if after != d.log {
      assert after[..|after| - 1] == d.log;
    }
  }

  // ---- margin and fee of an entry fill ----

  lemma MarginSteps(d: Desk, pid: string, f: Fill)
    requires Sound(d)
    ensures var d1, d2 := Ask(d, L.Reserve(pid, Margin(d, f), f.id)).0, TakeMargin(d, pid, f).0;
      && OneStep(d, d1) && OneStep(d1, d2) && OneStep(d2, BookFee(d2, pid, f))
      && d2.positions == d.positions && BookFee(d2, pid, f).positions == d.positions
      && d2.mapped == d.mapped && BookFee(d2, pid, f).mapped == d.mapped
  {
    AskSteps(d, L.Reserve(pid, Margin(d, f), f.id));
    var d1 := Ask(d, L.Reserve(pid, Margin(d, f), f.id)).0;
    AskSteps(d1, L.Allocate(pid, Margin(d, f), f.id));
    AskSteps(TakeMargin(d, pid, f).0, L.BookFee(pid, f.id, f.fee));
  }

  lemma SameMargin(d: Desk, d': Desk, f: Fill)
    requires d'.leverage == d.leverage
    ensures Margin(d', f) == Margin(d, f)
  {
  }

  /** Taking margin again, from between its two steps or from behind them. */
  lemma TakeAgain(d: Desk, pid: string, f: Fill)
    requires Sound(d)
    ensures TakeMargin(Ask(d, L.Reserve(pid, Margin(d, f), f.id)).0, pid, f) == TakeMargin(d, pid, f)
    ensures TakeMargin(TakeMargin(d, pid, f).0, pid, f) == TakeMargin(d, pid, f)
  {
    var reserve, allocate := L.Reserve(pid, Margin(d, f), f.id), L.Allocate(pid, Margin(d, f), f.id);
    var d1, d2 := Ask(d, reserve).0, TakeMargin(d, pid, f).0;
    MarginSteps(d, pid, f);
    hide Ask, Margin, Sound, LogSound;
    SameMargin(d, d1, f);
    SameMargin(d, d2, f);
    if Ask(d, reserve).1.Done? {
      DoneIsOnLog(d, reserve);
      KeyStays(d1.log, d2.log, ForPortfolio(L.KeyOf(reserve)));
      AskAgain(d1, reserve);
      AskAgain(d2, reserve);
      if Ask(d1, allocate).1.Done? {
        DoneIsOnLog(d1, allocate);
        AskAgain(d2, allocate);
      } else {
        RefusedChangesNothing(d1, allocate);
      }
    } else {
      RefusedChangesNothing(d, reserve);
    }
  }

  /** The fee can only leave less cash, so margin refused before it is refused after it. */
  lemma TakeAfterFee(d: Desk, pid: string, f: Fill)
    requires Sound(d)
    ensures var d2 := TakeMargin(d, pid, f).0;
            TakeMargin(BookFee(d2, pid, f), pid, f) == (BookFee(d2, pid, f), TakeMargin(d, pid, f).1)
  {
    var reserve, allocate := L.Reserve(pid, Margin(d, f), f.id), L.Allocate(pid, Margin(d, f), f.id);
    var fee := L.BookFee(pid, f.id, f.fee);
    var d1, d2 := Ask(d, reserve).0, TakeMargin(d, pid, f).0;
    var d3 := BookFee(d2, pid, f);
    MarginSteps(d, pid, f);
    AskSteps(d2, fee);
    hide Ask, Margin, Sound, LogSound;
    SameMargin(d, d2, f);
    SameMargin(d, d3, f);
    if Ask(d, reserve).1.Done? {
      DoneIsOnLog(d, reserve);
      FollowsOn(d1, d2, d3);
      KeyStays(d1.log, d3.log, ForPortfolio(L.KeyOf(reserve)));
      AskAgain(d3, reserve);
      if Ask(d1, allocate).1.Done? {
        DoneIsOnLog(d1, allocate);
        KeyStays(d2.log, d3.log, ForPortfolio(L.KeyOf(allocate)));
        AskAgain(d3, allocate);
      } else {
        RefusedChangesNothing(d1, allocate);
        RefusedAfterFee(d2, allocate, pid, f);
      }
    } else {
      RefusedChangesNothing(d, reserve);
      RefusedAfterFee(d2, reserve, pid, f);
    }
  }

  lemma RefusedAfterFee(d: Desk, q: L.Request, pid: string, f: Fill)
    requires Sound(d) && Ask(d, q).1.Refused? && (q.Reserve? || q.Allocate?)
    ensures Ask(BookFee(d, pid, f), q) == (BookFee(d, pid, f), Ask(d, q).1)
  {
    var fee := L.BookFee(pid, f.id, f.fee);
    AskSteps(d, fee);
    if L.AmountOk(q) {
      KeyStaysFree(d, fee, L.KeyOf(q));
    }
  }

  lemma FeeAgain(d: Desk, pid: string, f: Fill)
    requires Sound(d)
    ensures BookFee(BookFee(d, pid, f), pid, f) == BookFee(d, pid, f)
  {
    var fee := L.BookFee(pid, f.id, f.fee);
    if f.fee > 0.0 {
      DoneIsOnLog(d, fee);
      AskAgain(Ask(d, fee).0, fee);
    }
  }

  lemma MarginFollows(d: Desk, pid: string, f: Fill)
    requires Sound(d)
    ensures Follows(d, BookMargin(d, pid, f).0)
    ensures BookMargin(d, pid, f).0.positions == d.positions && BookMargin(d, pid, f).0.mapped == d.mapped
    ensures BookMargin(d, pid, f).0.closed == d.closed && BookMargin(d, pid, f).0.counted == d.counted
  {
    MarginSteps(d, pid, f);
    var d1, d2 := Ask(d, L.Reserve(pid, Margin(d, f), f.id)).0, TakeMargin(d, pid, f).0;
    FollowsOn(d, d1, d2);
    FollowsOn(d, d2, BookFee(d2, pid, f));
  }

  lemma MarginAgain(d: Desk, pid: string, f: Fill)
    requires Sound(d)
    ensures BookMargin(Ask(d, L.Reserve(pid, Margin(d, f), f.id)).0, pid, f) == BookMargin(d, pid, f)
    ensures BookMargin(TakeMargin(d, pid, f).0, pid, f) == BookMargin(d, pid, f)
    ensures BookMargin(BookMargin(d, pid, f).0, pid, f) == BookMargin(d, pid, f)
  {
    TakeAgain(d, pid, f);
    TakeAfterFee(d, pid, f);
    MarginSteps(d, pid, f);
    FeeAgain(TakeMargin(d, pid, f).0, pid, f);
  }

  /** The three margin steps heal from a crash after any of them. */
  lemma MarginHeals(d: Desk, pid: string, f: Fill, n: nat)
    requires Sound(d) && |d.log| <= n <= |BookMargin(d, pid, f).0.log|
    ensures var cut := Rebuilt(d, BookMargin(d, pid, f).0.log[..n]);
      && BookMargin(cut, pid, f) == BookMargin(d, pid, f)
      && cut.positions == d.positions && cut.mapped == d.mapped
  {
    var d1, d2 := Ask(d, L.Reserve(pid, Margin(d, f), f.id)).0, TakeMargin(d, pid, f).0;
    MarginSteps(d, pid, f);
    CutInThree(d, d1, d2, BookMargin(d, pid, f).0, n);
    MarginAgain(d, pid, f);
  }

  // ---- the position's part ----

  /** A fill the position has taken: only the margin steps are left. */
  lemma TakenFillBooksMargin(d: Desk, pid: string, f: Fill)
    requires pid in d.positions.snapshots && f.id in P.ProcessedOf(d.positions, pid)
    ensures BookInto(d, pid, f) == if Dead(d.positions.snapshots[pid].state) then (d, []) else BookMargin(d, pid, f)
  {
  }

  lemma PendingFillBooks(d: Desk, pid: string, f: Fill)
    requires Sound(d) && Pending(d, pid, f)
    ensures var d1 := Touch(d, pid, f);
      && Pending(d1, pid, f) && d1.positions.snapshots[pid].state != PS.New && OneStep(d, d1)
      && OneStep(d1, Enter(d1, pid, f)) && |Enter(d1, pid, f).log| == |d1.log| + 1
      && BookInto(d, pid, f) == BookMargin(Enter(d1, pid, f), pid, f)
  {
    TouchSteps(d, pid, f);
    EnterSteps(Touch(d, pid, f), pid, f);
    RecordIsTouchThenEnter(d, pid, f);
  }

  lemma UntakenFillStops(d: Desk, pid: string, f: Fill)
    requires !Pending(d, pid, f) && !(pid in d.positions.snapshots && f.id in P.ProcessedOf(d.positions, pid))
    ensures BookInto(d, pid, f) == (d, [Note(f.id, Raised)])
  {
  }

  lemma IntoFollows(d: Desk, pid: string, f: Fill)
    requires Sound(d)
    ensures Follows(d, BookInto(d, pid, f).0)
    ensures BookInto(d, pid, f).0.closed == d.closed && BookInto(d, pid, f).0.counted == d.counted
    ensures BookInto(d, pid, f).0.mapped == d.mapped
  {
    if Pending(d, pid, f) {
      PendingFillBooks(d, pid, f);
      TouchSteps(d, pid, f);
      var d1 := Touch(d, pid, f);
      EnterSteps(d1, pid, f);
      MarginFollows(Enter(d1, pid, f), pid, f);
      FollowsOn(d, d1, Enter(d1, pid, f));
      FollowsOn(d, Enter(d1, pid, f), BookInto(d, pid, f).0);
    } else if pid in d.positions.snapshots && f.id in P.ProcessedOf(d.positions, pid) {
      TakenFillBooksMargin(d, pid, f);
      MarginFollows(d, pid, f);
    } else {
      UntakenFillStops(d, pid, f);
    }
  }

  lemma PendingIntoHeals(d: Desk, pid: string, f: Fill, n: nat)
    requires Sound(d) && Pending(d, pid, f) && |d.log| <= n <= |BookInto(d, pid, f).0.log|
    ensures var cut := Rebuilt(d, BookInto(d, pid, f).0.log[..n]);
            BookInto(cut, pid, f) == BookInto(d, pid, f) && cut.mapped == d.mapped
  {
    var d1 := Touch(d, pid, f);
    PendingFillBooks(d, pid, f);
    TouchSteps(d, pid, f);
    var d2, end := Enter(d1, pid, f), BookInto(d, pid, f).0;
    EnterSteps(d1, pid, f);
    MarginFollows(d2, pid, f);
    FollowsOn(d1, d2, end);
    CutAtStep(d, d1, end, n);
    if n > |d.log| {
      CutAtStep(d1, d2, end, n);
      if n == |d1.log| {
        PendingFillBooks(d1, pid, f);
      } else {
        MarginHeals(d2, pid, f, n);
        TakenFillBooksMargin(Rebuilt(d2, end.log[..n]), pid, f);
      }
    }
  }

  /** Booking a fill into its position heals from a crash after any event. */
  lemma IntoHeals(d: Desk, pid: string, f: Fill, n: nat)
    requires Sound(d) && |d.log| <= n <= |BookInto(d, pid, f).0.log|
    ensures var cut := Rebuilt(d, BookInto(d, pid, f).0.log[..n]);
            BookInto(cut, pid, f) == BookInto(d, pid, f) && cut.mapped == d.mapped
  {
    if Pending(d, pid, f) {
      PendingIntoHeals(d, pid, f, n);
    } else {
      var taken := pid in d.positions.snapshots && f.id in P.ProcessedOf(d.positions, pid);
      if taken && !Dead(d.positions.snapshots[pid].state) {
        TakenFillBooksMargin(d, pid, f);
        MarginHeals(d, pid, f, n);
        TakenFillBooksMargin(Rebuilt(d, BookInto(d, pid, f).0.log[..n]), pid, f);
      } else {
        assert BookInto(d, pid, f).0 == d by {
          if taken { TakenFillBooksMargin(d, pid, f); } else { UntakenFillStops(d, pid, f); }
        }
        assert d.log[..n] == d.log;
      }
    }
  }

  // ---- entry fills ----

  /** The two records whose partner must follow: a position and its mapping, a close and its release. */
  predicate HalfDone(p: Payload) {
    p.Position? && (p.position.Created? || p.position.Exit?)
  }

  /** Cut between such a record and whatever the booking appended next. */
  predicate InWindow(log: Log, start: nat, n: nat) {
    start < n < |log| && HalfDone(log[n - 1].payload)
  }

  ghost predicate Calm(log: Log, longer: Log) {
    forall i :: |log| <= i < |longer| ==> !HalfDone(longer[i].payload)
  }

  lemma AskIsCalm(d: Desk, q: L.Request)
    requires Sound(d)
    ensures Calm(d.log, Ask(d, q).0.log)
  {
    AskSteps(d, q);
  }

  lemma CalmOn(a: Log, b: Log, c: Log)
    requires a <= b <= c && Calm(a, b) && Calm(b, c)
    ensures Calm(a, c)
  {
  }

  lemma MarginIsCalm(d: Desk, pid: string, f: Fill)
    requires Sound(d)
    ensures Calm(d.log, BookMargin(d, pid, f).0.log)
  {
    var reserve, allocate := L.Reserve(pid, Margin(d, f), f.id), L.Allocate(pid, Margin(d, f), f.id);
    var d1, d2 := Ask(d, reserve).0, TakeMargin(d, pid, f).0;
    MarginSteps(d, pid, f);
    AskIsCalm(d, reserve);
    AskIsCalm(d1, allocate);
    AskIsCalm(d2, L.BookFee(pid, f.id, f.fee));
    CalmOn(d.log, d1.log, d2.log);
    CalmOn(d.log, d2.log, BookFee(d2, pid, f).log);
  }

  lemma EnteringIsCalm(d: Desk, pid: string, f: Fill)
    requires Sound(d) && Pending(d, pid, f)
    ensures Pending(Touch(d, pid, f), pid, f) && Calm(d.log, Enter(Touch(d, pid, f), pid, f).log)
  {
    var d1 := Touch(d, pid, f);
    TouchSteps(d, pid, f);
    EnterSteps(d1, pid, f);
    CalmOn(d.log, d1.log, Enter(d1, pid, f).log);
  }

  lemma PendingIntoIsCalm(d: Desk, pid: string, f: Fill)
    requires Sound(d) && Pending(d, pid, f)
    ensures Calm(d.log, BookInto(d, pid, f).0.log)
  {
    EnteringIsCalm(d, pid, f);
    PendingFillBooks(d, pid, f);
    var d1 := Touch(d, pid, f);
    var d2 := Enter(d1, pid, f);
    MarginIsCalm(d2, pid, f);
    MarginFollows(d2, pid, f);
    FollowsOn(d, d1, d2);
    CalmOn(d.log, d2.log, BookMargin(d2, pid, f).0.log);
  }

  lemma IntoIsCalm(d: Desk, pid: string, f: Fill)
    requires Sound(d)
    ensures Calm(d.log, BookInto(d, pid, f).0.log)
  {
    if Pending(d, pid, f) {
      PendingIntoIsCalm(d, pid, f);
    } else if pid in d.positions.snapshots && f.id in P.ProcessedOf(d.positions, pid) {
      TakenFillBooksMargin(d, pid, f);
      MarginIsCalm(d, pid, f);
    } else {
      UntakenFillStops(d, pid, f);
    }
  }

  /** The fill of an order without a position yet, all its requirements met. */
  predicate Creates(d: Desk, f: Fill, intended: real) {
    Lookup(d.mapped, f.cid).None? && f.cid in d.levels && Distance(d.levels[f.cid]) > 0.0 && intended > 0.0
  }

  function NewPid(d: Desk): string {
    P.MakeId(d.pm, d.positions.nextSeq)
  }

  function Create(d: Desk, f: Fill, intended: real): Desk
    requires f.cid in d.levels
  {
    WithPositions(d, P.CreatePosition(PositionWorld(d), TermsFor(f, intended, d.levels[f.cid])).0)
  }

  lemma CreationBooks(d: Desk, f: Fill, intended: real)
    requires Sound(d) && Creates(d, f, intended)
    ensures var dc := Create(d, f, intended);
            var dm := MapOrder(dc, f.cid, NewPid(d));
      && OneStep(d, dc) && |dc.log| == |d.log| + 1 && OneStep(dc, dm) && |dm.log| == |d.log| + 2
      && HalfDone(dc.log[|d.log|].payload) && dm.log[|dc.log|].payload.Accounting?
      && Creates(dc, f, intended) && Lookup(dm.mapped, f.cid) == Some(NewPid(d))
      && BookEntry(d, f, intended) == BookInto(dm, NewPid(d), f)
  {
    CreateSteps(d, TermsFor(f, intended, d.levels[f.cid]));
    MapSteps(Create(d, f, intended), f.cid, NewPid(d));
  }

  lemma NothingCreated(d: Desk, f: Fill, intended: real)
    requires Lookup(d.mapped, f.cid).None? && !Creates(d, f, intended)
    ensures BookEntry(d, f, intended).0 == d
  {
    assert WithPositions(d, PositionWorld(d)) == d;
  }

  lemma CreationFollows(d: Desk, f: Fill, intended: real)
    requires Sound(d) && Creates(d, f, intended)
    ensures var end := BookEntry(d, f, intended).0;
            Follows(d, end) && end.closed == d.closed && end.counted == d.counted
  {
    CreationBooks(d, f, intended);
    var dc := Create(d, f, intended);
    var dm := MapOrder(dc, f.cid, NewPid(d));
    IntoFollows(dm, NewPid(d), f);
    FollowsOn(d, dc, dm);
    FollowsOn(d, dm, BookEntry(d, f, intended).0);
  }

  /** Behind the mapping everything heals; between creation and mapping a second position is made. */
  lemma CreationHeals(d: Desk, f: Fill, intended: real, n: nat)
    requires Sound(d) && Creates(d, f, intended) && |d.log| <= n <= |BookEntry(d, f, intended).0.log|
    ensures var end := BookEntry(d, f, intended);
            var cut := Rebuilt(d, end.0.log[..n]);
      && (InWindow(end.0.log, |d.log|, n) <==> n == |d.log| + 1)
      && (n != |d.log| + 1 ==> BookEntry(cut, f, intended) == end)
      && (n == |d.log| + 1 ==> BookEntry(cut, f, intended).0.log != end.0.log)
  {
    CreationBooks(d, f, intended);
    var dc := Create(d, f, intended);
    var dm := MapOrder(dc, f.cid, NewPid(d));
    var end := BookEntry(d, f, intended).0;
    IntoFollows(dm, NewPid(d), f);
    IntoIsCalm(dm, NewPid(d), f);
    FollowsOn(dc, dm, end);
    assert forall i :: 0 <= i < |dm.log| ==> end.log[i] == dm.log[i];
    CutAtStep(d, dc, end, n);
    if n == |d.log| + 1 {
      CutAtStep(dc, dm, end, n);
      SecondCreation(dc, f, intended, end.log);
    } else if n > |d.log| {
      CutAtStep(dc, dm, end, n);
      IntoHeals(dm, NewPid(d), f, n);
    }
  }

  lemma SecondCreation(dc: Desk, f: Fill, intended: real, log: Log)
    requires Sound(dc) && Creates(dc, f, intended) && |dc.log| < |log| && log[|dc.log|].payload.Accounting?
    ensures BookEntry(dc, f, intended).0.log != log
  {
    CreationBooks(dc, f, intended);
    var again := Create(dc, f, intended);
    var dm := MapOrder(again, f.cid, NewPid(dc));
    IntoFollows(dm, NewPid(dc), f);
    assert dm.log[|dc.log|] == again.log[|dc.log|];
  }

  lemma EntryHeals(d: Desk, f: Fill, intended: real, n: nat)
    requires Sound(d) && |d.log| <= n <= |BookEntry(d, f, intended).0.log|
    ensures var end := BookEntry(d, f, intended);
            var cut := Rebuilt(d, end.0.log[..n]);
      && (!InWindow(end.0.log, |d.log|, n) ==> BookEntry(cut, f, intended) == end)
      && (InWindow(end.0.log, |d.log|, n) ==> BookEntry(cut, f, intended).0.log != end.0.log)
  {
    if Lookup(d.mapped, f.cid).Some? {
      var pid := Lookup(d.mapped, f.cid).value;
      IntoHeals(d, pid, f, n);
      IntoIsCalm(d, pid, f);
    } else if Creates(d, f, intended) {
      CreationHeals(d, f, intended, n);
    } else {
      NothingCreated(d, f, intended);
      assert d.log[..n] == d.log;
    }
  }
}
