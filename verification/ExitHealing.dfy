/**
 A crash while a reduce-only fill is being booked.  The accumulators are not durable: a new
 process re-counts them from the fills before this one, so it starts with the ones the old
 process had.
 */
module ExitHealing {
  import opened Wrappers
  import opened EventLog
  import opened Records
  import opened Accounting
  import opened AccountingRuns
  import opened AccountingHealing
  import opened Sums
  import PS = PositionStates
  import P = Positions
  import PR = PositionRuns
  import L = Portfolio

  /** The desk with the accumulators of another. */
  function Recounted(d: Desk, like: Desk): Desk {
    d.(closed := like.closed, counted := like.counted)
  }

  const Reason: Option<string> := Some("reduce_only_fill")

  /** The close is legal, new and computable, so it is persisted. */
  predicate Closable(d: Desk, pid: string, f: Fill) {
    pid in d.positions.snapshots && f.id !in P.ProcessedOf(d.positions, pid) &&
    var s := d.positions.snapshots[pid];
    PS.Next(s.state, PS.Close).Some? && s.avg.Some? && s.avg.value > 0.0 && s.terms.stopD > 0.0 && s.terms.intended > 0.0
  }

  function Closed(d: Desk, pid: string, f: Fill): Desk {
    WithPositions(d, P.RecordExit(PositionWorld(d), pid, f, PS.Close, Reason).0)
  }

  lemma ClosePersists(d: Desk, pid: string, f: Fill)
    requires Sound(d) && Closable(d, pid, f)
    ensures P.RecordExit(PositionWorld(d), pid, f, PS.Close, Reason).1.Snap?
    ensures var d1 := Closed(d, pid, f);
      && OneStep(d, d1) && |d1.log| == |d.log| + 1 && HalfDone(d1.log[|d.log|].payload)
      && pid in d1.positions.snapshots && d1.positions.snapshots[pid].state == PS.Closed
      && d1.positions.snapshots[pid].avg == d.positions.snapshots[pid].avg
      && d1.positions.snapshots[pid].terms == d.positions.snapshots[pid].terms
      && d1.ledger == d.ledger && d1.mapped == d.mapped
  {
    var s := d.positions.snapshots[pid];
    var r := Exit(pid, PS.Close, s.state, PS.Closed, f.id, P.NewLeg(s, f, P.LegReason(PS.Close, s.state, Reason)));
    PositionWorldIsGood(d);
    PR.PersistIsFresh(PositionWorld(d), r);
    PersistSteps(d, r);
  }

  /** A live position that cannot close now stays as it is; a fill it has taken before is no error. */
  lemma CloseStands(d: Desk, pid: string, f: Fill)
    requires pid in d.positions.snapshots && !Dead(d.positions.snapshots[pid].state) && !Closable(d, pid, f)
    ensures Closed(d, pid, f) == d
    ensures P.RecordExit(PositionWorld(d), pid, f, PS.Close, Reason).1.Snap? <==> f.id in P.ProcessedOf(d.positions, pid)
  {
    assert WithPositions(d, PositionWorld(d)) == d;
  }

  lemma ReleaseAgain(d: Desk, pid: string, request: string)
    requires Sound(d)
    ensures var d1 := Ask(d, L.Release(pid, request)).0; Ask(d1, L.Release(pid, request)).0 == d1
  {
    AskSteps(d, L.Release(pid, request));
  }

  // ---- the profit of one tranche ----

  lemma PnlSteps(d: Desk, pid: string, s: P.Snapshot, f: Fill)
    requires Sound(d)
    ensures var d1 := BookPnl(d, pid, s, f);
      && OneStep(d, d1) && Calm(d.log, d1.log) && d1.positions == d.positions && d1.mapped == d.mapped
  {
    if s.avg.Some? {
      AskSteps(d, L.BookPnl(pid, f.id, Realized(s.terms.side, s.avg.value, f)));
    }
  }

  /** Once booked, the tranche is a repeat on every longer log, whatever amount is computed then. */
  lemma PnlAgain(d: Desk, pid: string, s: P.Snapshot, f: Fill, later: Desk, s': P.Snapshot)
    requires Sound(d) && BookPnl(d, pid, s, f).log <= later.log && (s'.avg.Some? ==> s.avg.Some?)
    ensures BookPnl(later, pid, s', f) == later
  {
    if s'.avg.Some? {
      var q := L.BookPnl(pid, f.id, Realized(s.terms.side, s.avg.value, f));
      DoneIsOnLog(d, q);
      KeyStays(Ask(d, q).0.log, later.log, ForPortfolio(L.KeyOf(q)));
      AskAgain(later, L.BookPnl(pid, f.id, Realized(s'.terms.side, s'.avg.value, f)));
    }
  }

  lemma CountKeepsSound(d: Desk, pid: string, f: Fill)
    requires Sound(d)
    ensures Sound(Count(d, pid, f))
  {
  }

  // ---- closing ----

  /** Everything up to the closing step: the profit booked and the fill counted. */
  function Tranche(d: Desk, pid: string, f: Fill): Desk
    requires pid in d.positions.snapshots
  {
    Count(BookPnl(d, pid, d.positions.snapshots[pid], f), pid, f)
  }

  /** The fill completes the close of a live position. */
  predicate Completes(d: Desk, pid: string, f: Fill) {
    && pid in d.positions.snapshots && !Dead(d.positions.snapshots[pid].state)
    && At(Tranche(d, pid, f).closed, pid) >= d.positions.snapshots[pid].filled
  }

  lemma TrancheSteps(d: Desk, pid: string, f: Fill)
    requires Sound(d) && pid in d.positions.snapshots
    ensures var p, x := BookPnl(d, pid, d.positions.snapshots[pid], f), Tranche(d, pid, f);
      && OneStep(d, p) && Calm(d.log, p.log) && Sound(x) && x == Count(p, pid, f) && p == Recounted(x, d)
      && x.positions == d.positions && x.mapped == d.mapped && p.positions == d.positions
      && Follows(d, x) && x.log == p.log
  {
    PnlSteps(d, pid, d.positions.snapshots[pid], f);
    CountKeepsSound(BookPnl(d, pid, d.positions.snapshots[pid], f), pid, f);
  }

  /** Counting the fill twice over, from the same accumulators, comes to the same. */
  lemma TrancheAgain(d: Desk, pid: string, f: Fill, later: Desk)
    requires Sound(d) && pid in d.positions.snapshots && pid in later.positions.snapshots
    requires later.closed == d.closed && later.counted == d.counted
    requires Tranche(d, pid, f).log <= later.log
    requires later.positions.snapshots[pid].avg == d.positions.snapshots[pid].avg
    ensures Tranche(later, pid, f) == Recounted(later, Tranche(d, pid, f))
  {
    TrancheSteps(d, pid, f);
    PnlAgain(d, pid, d.positions.snapshots[pid], f, later, later.positions.snapshots[pid]);
  }

  lemma TrancheHeals(d: Desk, pid: string, f: Fill, n: nat)
    requires Sound(d) && pid in d.positions.snapshots && |d.log| <= n <= |Tranche(d, pid, f).log|
    ensures CloseInto(Rebuilt(d, Tranche(d, pid, f).log[..n]), pid, f) == CloseInto(d, pid, f)
  {
    TrancheSteps(d, pid, f);
    var p := BookPnl(d, pid, d.positions.snapshots[pid], f);
    CutAtStep(d, p, p, n);
    if n > |d.log| {
      assert p.log[..n] == p.log;
      TrancheAgain(d, pid, f, p);
    }
  }

  /** The closing step and the release. */
  lemma FinishSteps(x: Desk, pid: string, f: Fill)
    requires Sound(x) && pid in x.positions.snapshots && !Dead(x.positions.snapshots[pid].state)
    ensures var y, z := Closed(x, pid, f), Finish(x, pid, f).0;
      && OneStep(x, y) && OneStep(y, z) && Calm(y.log, z.log)
      && (y.log != x.log ==> Closable(x, pid, f) && |y.log| == |x.log| + 1 && HalfDone(y.log[|x.log|].payload))
      && (!Closable(x, pid, f) ==> y == x)
  {
    var y := Closed(x, pid, f);
    if Closable(x, pid, f) {
      ClosePersists(x, pid, f);
    } else {
      CloseStands(x, pid, f);
    }
    AskSteps(y, L.Release(pid, "close:" + pid));
  }

  /** Finished already: re-counted from the same accumulators, the desk stays as it is. */
  lemma FinishedStays(d: Desk, pid: string, f: Fill)
    requires Sound(d) && Completes(d, pid, f)
    ensures var x, z := Tranche(d, pid, f), Finish(Tranche(d, pid, f), pid, f).0;
            CloseInto(Recounted(z, d), pid, f).0 == z
  {
    hide Sound, Realized;
    var x := Tranche(d, pid, f);
    var y, z := Closed(x, pid, f), Finish(x, pid, f).0;
    TrancheSteps(d, pid, f);
    FinishSteps(x, pid, f);
    AskSteps(y, L.Release(pid, "close:" + pid));
    assert z.positions == y.positions;
    if Closable(x, pid, f) {
      ClosePersists(x, pid, f);
      FollowsOn(x, y, z);
      TrancheAgain(d, pid, f, Recounted(z, d));
      assert Recounted(Recounted(z, d), x) == z;
    } else {
      CloseStands(x, pid, f);
      TrancheAgain(d, pid, f, Recounted(z, d));
      assert Recounted(Recounted(z, d), x) == z;
      CloseStands(z, pid, f);
      if f.id in P.ProcessedOf(x.positions, pid) {
        ReleaseAgain(x, pid, "close:" + pid);
      }
    }
  }

  /** Closed but not released: the re-booking stops at the dead position. */
  lemma ClosedIsNotReleased(d: Desk, pid: string, f: Fill)
    requires Sound(d) && Completes(d, pid, f) && Closable(Tranche(d, pid, f), pid, f)
    ensures var y := Closed(Tranche(d, pid, f), pid, f);
            CloseInto(Recounted(y, d), pid, f).0 == y
  {
    var x := Tranche(d, pid, f);
    var y := Closed(x, pid, f);
    TrancheSteps(d, pid, f);
    ClosePersists(x, pid, f);
    TrancheAgain(d, pid, f, Recounted(y, d));
    assert Recounted(Recounted(y, d), x) == y;
  }

  lemma CompletesByFinish(d: Desk, pid: string, f: Fill)
    requires Completes(d, pid, f)
    ensures CloseInto(d, pid, f) == Finish(Tranche(d, pid, f), pid, f)
  {
  }

  lemma RebuiltLike(d: Desk, x: Desk, log: Log)
    requires x.pm == d.pm && x.leverage == d.leverage
    ensures Rebuilt(d, log) == Recounted(Rebuilt(x, log), d)
  {
  }

  lemma FinishHeals(d: Desk, pid: string, f: Fill, n: nat)
    requires Sound(d) && Completes(d, pid, f)
    requires |Tranche(d, pid, f).log| < n <= |CloseInto(d, pid, f).0.log|
    ensures var end := CloseInto(d, pid, f).0;
            var again := CloseInto(Rebuilt(d, end.log[..n]), pid, f).0;
      && (!InWindow(end.log, |d.log|, n) ==> again == end)
      && (InWindow(end.log, |d.log|, n) ==> again.log != end.log)
  {
    CompletesByFinish(d, pid, f);
    TrancheSteps(d, pid, f);
    hide CloseInto, Finish, Closed, Closable, Tranche, Rebuilt, LogSound;
    var x := Tranche(d, pid, f);
    var y, z := Closed(x, pid, f), Finish(x, pid, f).0;
    FinishSteps(x, pid, f);
    FinishedStays(d, pid, f);
    CutAtStep(x, y, z, n);
    CutAtStep(y, z, z, n);
    RebuiltLike(d, x, z.log[..n]);
    if n == |z.log| {
      assert z.log[..n] == z.log;
    } else {
      ClosedIsNotReleased(d, pid, f);
    }
  }

  lemma CloseHeals(d: Desk, pid: string, f: Fill, n: nat)
    requires Sound(d) && |d.log| <= n <= |CloseInto(d, pid, f).0.log|
    ensures var end := CloseInto(d, pid, f).0;
            var again := CloseInto(Rebuilt(d, end.log[..n]), pid, f).0;
      && (!InWindow(end.log, |d.log|, n) ==> again == end)
      && (InWindow(end.log, |d.log|, n) ==> again.log != end.log)
  {
    hide Realized, Finish;
    if pid !in d.positions.snapshots {
      assert d.log[..n] == d.log;
    } else {
      TrancheSteps(d, pid, f);
      var x := Tranche(d, pid, f);
      if !Completes(d, pid, f) {
        TrancheHeals(d, pid, f, n);
      } else if n > |x.log| {
        FinishHeals(d, pid, f, n);
      } else {
        FinishSteps(x, pid, f);
        FollowsOn(x, Closed(x, pid, f), Finish(x, pid, f).0);
        assert CloseInto(d, pid, f).0.log[..n] == x.log[..n];
        TrancheHeals(d, pid, f, n);
      }
    }
  }

  lemma CloseFollows(d: Desk, pid: string, f: Fill)
    requires Sound(d)
    ensures Follows(d, CloseInto(d, pid, f).0)
  {
    if pid in d.positions.snapshots {
      TrancheSteps(d, pid, f);
      var x := Tranche(d, pid, f);
      if Completes(d, pid, f) {
        FinishSteps(x, pid, f);
        FollowsOn(x, Closed(x, pid, f), Finish(x, pid, f).0);
        FollowsOn(d, x, Finish(x, pid, f).0);
      }
    }
  }

  /** The position an exit fill goes to: the one its order is mapped to, or the first that matches. */
  function Target(d: Desk, f: Fill): Option<string> {
    var known := Lookup(d.mapped, f.cid);
    if known.Some? then known else FindOpen(d.positions, d.mapped, f.symbol, f.side)
  }

  function Attributed(d: Desk, f: Fill): Desk {
    if Lookup(d.mapped, f.cid).Some? || Target(d, f).None? then d else MapOrder(d, f.cid, Target(d, f).value)
  }

  lemma AttributedSteps(d: Desk, f: Fill)
    requires Sound(d)
    ensures OneStep(d, Attributed(d, f)) && Calm(d.log, Attributed(d, f).log)
    ensures Target(d, f).Some? ==> Lookup(Attributed(d, f).mapped, f.cid) == Target(d, f)
    ensures BookExit(d, f) == if Target(d, f).None? then (d, [Note(f.id, NoMatch)])
                              else CloseInto(Attributed(d, f), Target(d, f).value, f)
  {
    if Lookup(d.mapped, f.cid).None? && Target(d, f).Some? {
      MapSteps(d, f.cid, Target(d, f).value);
    }
  }

  /** Behind the attribution the order is mapped, in every process that reads the log. */
  lemma AttributedCut(d: Desk, f: Fill, n: nat)
    requires Sound(d) && Target(d, f).Some? && |Attributed(d, f).log| <= n <= |BookExit(d, f).0.log|
    ensures var pid, dm, end := Target(d, f).value, Attributed(d, f), BookExit(d, f).0;
            var cut := Rebuilt(d, end.log[..n]);
            cut == Rebuilt(dm, end.log[..n]) && BookExit(cut, f) == CloseInto(cut, pid, f)
  {
    hide CloseInto, FindOpen;
    var pid, dm, end := Target(d, f).value, Attributed(d, f), BookExit(d, f).0;
    AttributedSteps(d, f);
    CloseFollows(dm, pid, f);
    LogSoundPrefix(d.pm, end.log, n);
    assert end.log[..n][..|dm.log|] == dm.log;
    MappingStays(end.log[..n], |dm.log|, f.cid);
  }

  lemma WindowBehind(log: Log, a: Log, b: Log, n: nat)
    requires a <= b <= log && Calm(a, b) && |b| <= n
    ensures InWindow(log, |a|, n) <==> InWindow(log, |b|, n)
  {
    assert forall i :: 0 <= i < |b| ==> log[i] == b[i];
  }

  lemma ExitHeals(d: Desk, f: Fill, n: nat)
    requires Sound(d) && |d.log| <= n <= |BookExit(d, f).0.log|
    ensures var end := BookExit(d, f).0;
            var again := BookExit(Rebuilt(d, end.log[..n]), f).0;
      && (!InWindow(end.log, |d.log|, n) ==> again == end)
      && (InWindow(end.log, |d.log|, n) ==> again.log != end.log)
  {
    AttributedSteps(d, f);
    var dm, end := Attributed(d, f), BookExit(d, f).0;
    if Target(d, f).None? {
      assert d.log[..n] == d.log;
    } else {
      var pid := Target(d, f).value;
      CloseFollows(dm, pid, f);
      if n >= |dm.log| {
        hide *;
        AttributedCut(d, f, n);
        WindowBehind(end.log, d.log, dm.log, n);
        CloseHeals(dm, pid, f, n);
      } else {
        CutAtStep(d, dm, end, n);
      }
    }
  }

  lemma ExitFollows(d: Desk, f: Fill)
    requires Sound(d)
    ensures Follows(d, BookExit(d, f).0)
  {
    AttributedSteps(d, f);
    if Target(d, f).Some? {
      CloseFollows(Attributed(d, f), Target(d, f).value, f);
      FollowsOn(d, Attributed(d, f), BookExit(d, f).0);
    }
  }
}
