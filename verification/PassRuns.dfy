/**
 Whole runs of an engine over a venue's growing history: what a process has settled at any
 point, and how it heals from there.
 */
module PassRuns {
  import opened Wrappers
  import opened EventLog
  import opened Records
  import opened Accounting
  import opened AccountingRuns
  import opened AccountingHealing
  import opened CrashHealing
  import opened EngineRuns
  import opened FillTrail
  import opened TrailRuns
  import opened SyncHealing
  import opened PassHealing
  import opened ExitHealing
  import O = Orders
  import OH = OrderHistory
  import P = Positions

  /** The history the running process has booked: that of its last pass, none after a crash. */
  function Seen(actions: seq<Action>): seq<Fill> {
    if actions == [] then []
    else
      match actions[|actions| - 1]
      case CrashDuring(_, _) => []
      case Complete(SyncFills(Answer(fills))) => fills
      case _ => Seen(actions[..|actions| - 1])
  }

  /** A fair run whose completed passes each see at least what the one before saw, and complain of nothing. */
  predicate Diligent(e: Engine, actions: seq<Action>, c: Watch) {
    FairRun(e, actions, c) && CleanPasses(e, actions)
  }

  predicate CleanPasses(e: Engine, actions: seq<Action>) {
    actions == [] ||
    var front, a := actions[..|actions| - 1], actions[|actions| - 1];
    && CleanPasses(e, front)
    && (a.Complete? && a.step.SyncFills? && a.step.fetched.Answer? ==>
          Seen(front) <= a.step.fetched.value && Clean(BookAll(Run(e, front), a.step.fetched.value).1))
  }

  /** Where everything is backed by the venue's fills, an exit never carries an id its live position has. */
  lemma TrackedIsFresh(e: Engine, c: Watch, k: nat)
    requires EngineTracked(e, c) && k < |c.fills|
    ensures FreshExit(e, c.fills[k])
  {
    var f := c.fills[k];
    if ReduceOnly(e.desk.log, f.cid) == Some(true) && Target(e.desk, f).Some? {
      var pid := Target(e.desk, f).value;
      if pid in e.desk.positions.snapshots && !Dead(e.desk.positions.snapshots[pid].state) && f.id in P.ProcessedOf(e.desk.positions, pid) {
        TakenIsEntry(c.om, e.desk.pm, e.desk.log, c.fills, c.who, pid, f);
        assert false;
      }
    }
  }

  lemma PassIsFresh(e: Engine, c: Watch, m: nat, k: nat)
    requires EngineTracked(e, c) && m <= |c.fills|
    ensures FreshFrom(e, c.fills[..m], k)
  {
    var pass := c.fills[..m];
    forall i | k <= i < |pass|
      ensures FreshExit(BookAll(e, pass[..i]).0, pass[i])
    {
      assert pass[..i] == c.fills[..i];
      PassIsTracked(e, c, i);
      TrackedIsFresh(BookAll(e, c.fills[..i]).0, c, i);
    }
  }

  lemma {:induction false} LevelsKeepCounts(d: Desk, xs: seq<Execution>)
    ensures RecordAllLevels(d, xs).closed == d.closed && RecordAllLevels(d, xs).counted == d.counted
  {
    if xs != [] {
      LevelsKeepCounts(d, xs[..|xs| - 1]);
    }
  }

  lemma StepIsCurrent(e: Engine, s: Step, h: seq<Fill>)
    requires Current(e, h) && !(s.SyncFills? && s.fetched.Answer?)
    ensures Current(Do(e, s), h)
  {
    hide Current, SettledIn;
    SettledParts(e, h);
    DoKeeps(e, s);
    DoKeepsNames(e, s);
    match s
    case Trade(_) => CurrentStays(e, Do(e, s), h);
    case Execute(xs) =>
      LevelsKeepCounts(e.desk, xs);
      CurrentStays(e, Do(e, s), h);
    case SyncFills(_) =>
    case Request(q) =>
      AskSteps(e.desk, q);
      CurrentStays(e, Do(e, s), h);
  }

  lemma CrashIsCurrent(e: Engine, a: Action, c: Watch)
    requires EngineTracked(e, c) && Fair(a.step, c) && a.CrashDuring?
    ensures Current(Act(e, a), [])
  {
    hide Do, Tracked, Current, Rebuilt, LogSound, OH.Proper;
    DoKeeps(e, a.step);
    DoKeepsNames(e, a.step);
    var after := Do(e, a.step).desk.log;
    var n := if |e.desk.log| + a.persisted <= |after| then |e.desk.log| + a.persisted else |after|;
    LogSoundPrefix(e.desk.pm, after, n);
    OH.ProperPrefix(e.om, after, n);
    NewIsCurrent(e, after[..n]);
  }

  lemma StartIsCurrent(om: string, pm: string, leverage: Leverage)
    ensures Current(Empty(om, pm, leverage), [])
  {
    RunIsSound(om, pm, leverage, []);
  }

  /** At every point of a diligent run the running process has settled the whole of the last history it saw. */
  lemma {:induction false} RunIsCurrent(pm: string, leverage: Leverage, actions: seq<Action>, c: Watch)
    requires Venue(c.fills) && (c.who != {} ==> leverage > 0.0) && Diligent(Empty(c.om, pm, leverage), actions, c)
    ensures var e := Run(Empty(c.om, pm, leverage), actions); EngineTracked(e, c) && Current(e, Seen(actions))
  {
    hide Current, Clean, Do, Tracked;
    RunIsTracked(pm, leverage, actions, c);
    if actions == [] {
      StartIsCurrent(c.om, pm, leverage);
    } else {
      var front, a := actions[..|actions| - 1], actions[|actions| - 1];
      var e := Run(Empty(c.om, pm, leverage), front);
      RunIsCurrent(pm, leverage, front, c);
      if a.CrashDuring? {
        CrashIsCurrent(e, a, c);
      } else if a.step.SyncFills? && a.step.fetched.Answer? {
        PassOfRun(e, Seen(front), a.step.fetched.value, c);
      } else {
        StepIsCurrent(e, a.step, Seen(front));
      }
    }
  }

  lemma PassOfRun(e: Engine, h: seq<Fill>, fills: seq<Fill>, c: Watch)
    requires EngineTracked(e, c) && Current(e, h) && h <= fills <= c.fills && Clean(BookAll(e, fills).1)
    ensures Current(Do(e, SyncFills(O.Answer(fills))), fills)
  {
    assert fills == c.fills[..|fills|];
    PassIsFresh(e, c, |fills|, |h|);
    PassIsCurrent(e, h, fills);
  }

  // ---- healing at any point a run can reach ----

  /** Anything the running process has seen may be shown to it again. */
  lemma ReachablePassRepeats(pm: string, leverage: Leverage, actions: seq<Action>, c: Watch, again: seq<Fill>)
    requires Venue(c.fills) && (c.who != {} ==> leverage > 0.0) && Diligent(Empty(c.om, pm, leverage), actions, c)
    requires forall f :: f in again ==> f in Seen(actions)
    ensures var e := Run(Empty(c.om, pm, leverage), actions); SameEngine(BookAll(e, again).0, e)
  {
    RunIsCurrent(pm, leverage, actions, c);
    SettledForGood(Run(Empty(c.om, pm, leverage), actions), Seen(actions), again);
  }

  /** Crash healing, exactly, at any point of any diligent run. */
  lemma ReachableBookingHeals(pm: string, leverage: Leverage, actions: seq<Action>, c: Watch, f: Fill, n: nat)
    requires Venue(c.fills) && (c.who != {} ==> leverage > 0.0) && Diligent(Empty(c.om, pm, leverage), actions, c)
    ensures var e := Run(Empty(c.om, pm, leverage), actions);
            var end := BookOne(e, f).0;
            |e.desk.log| <= n <= |end.desk.log| ==>
              var again := BookAll(NewProcess(e, end.desk.log[..n]), Seen(actions) + [f]).0;
              SameEngine(again, end) <==> !InWindow(end.desk.log, |e.desk.log|, n)
  {
    RunIsCurrent(pm, leverage, actions, c);
    var e := Run(Empty(c.om, pm, leverage), actions);
    if |e.desk.log| <= n <= |BookOne(e, f).0.desk.log| {
      BookingHeals(e, Seen(actions), f, n);
    }
  }

  /** A pass that dies at its `k`-th fill, at any point of any diligent run, heals in the next process. */
  lemma ReachableSyncHeals(pm: string, leverage: Leverage, actions: seq<Action>, c: Watch, m: nat, k: nat, n: nat)
    requires Venue(c.fills) && (c.who != {} ==> leverage > 0.0) && Diligent(Empty(c.om, pm, leverage), actions, c)
    requires k < m <= |c.fills| && Seen(actions) <= c.fills[..m]
    requires var e := Run(Empty(c.om, pm, leverage), actions);
             var mid := BookAll(e, c.fills[..k]).0;
             var end := BookOne(mid, c.fills[k]).0.desk.log;
      Clean(BookAll(e, c.fills[..k]).1) && |mid.desk.log| <= n <= |end| && !InWindow(end, |mid.desk.log|, n)
    ensures var e := Run(Empty(c.om, pm, leverage), actions);
            var died := NewProcess(e, BookOne(BookAll(e, c.fills[..k]).0, c.fills[k]).0.desk.log[..n]);
            SameEngine(BookAll(died, c.fills[..m]).0, BookAll(e, c.fills[..m]).0)
  {
    hide Current, Diligent, Clean, BookOne, BookAll, FreshFrom;
    RunIsCurrent(pm, leverage, actions, c);
    var e, fills := Run(Empty(c.om, pm, leverage), actions), c.fills[..m];
    assert fills[..k] == c.fills[..k] && fills[k] == c.fills[k];
    PassIsFresh(e, c, k, |Seen(actions)|);
    SyncHeals(e, Seen(actions), fills, k, n);
  }
}
