/**
 A pass over the venue's fills that is cut short again and again, while the venue's history
 grows, before it goes through.
 */
module PassCrashes {
  import opened Records
  import opened Accounting
  import opened AccountingHealing
  import opened CrashHealing
  import opened EngineRuns
  import opened SyncHealing
  import opened PassHealing
  import opened TrailRuns
  import opened FillTrail
  import opened PassRuns
  import O = Orders

  /** A pass that is shown so many fills and dies after so many events. */
  datatype Cut = Cut(shown: nat, persisted: nat)

  function LogBehind(e: Engine, fills: seq<Fill>, shown: nat): Log
    requires shown <= |fills|
  {
    BookAll(e, fills[..shown]).0.desk.log
  }

  lemma LogsExtend(e: Engine, fills: seq<Fill>, m: nat)
    requires EngineSound(e) && m <= |fills|
    ensures e.desk.log <= LogBehind(e, fills, m) <= BookAll(e, fills).0.desk.log
  {
    hide BookAll, EngineSound;
    BookAllKeeps(e, fills[..m]);
    BookAllKeeps(BookAll(e, fills[..m]).0, fills[m..]);
    BookAllSplits(e, fills[..m], fills[m..]);
    assert fills[..m] + fills[m..] == fills;
  }

  /** The fill whose booking appended the `n`-th event. */
  lemma {:induction false} FillBehind(e: Engine, fills: seq<Fill>, n: nat) returns (k: nat)
    requires |e.desk.log| < n <= |BookAll(e, fills).0.desk.log|
    ensures k < |fills|
    ensures |LogBehind(e, fills, k)| < n <= |LogBehind(e, fills, k + 1)|
  {
    hide BookOne;
    var front := fills[..|fills| - 1];
    if |BookAll(e, front).0.desk.log| < n {
      k := |front|;
      assert fills[..k + 1] == fills;
    } else {
      k := FillBehind(e, front, n);
      assert front[..k] == fills[..k] && front[..k + 1] == fills[..k + 1];
    }
  }

  lemma FreshUpTo(e: Engine, fills: seq<Fill>, k: nat, from: nat)
    requires FreshFrom(e, fills, from) && k <= |fills|
    ensures FreshFrom(e, fills[..k], from)
  {
    hide BookAll, FreshExit;
    forall i | from <= i < k
      ensures FreshExit(BookAll(e, fills[..k][..i]).0, fills[..k][i])
    {
      assert fills[..k][..i] == fills[..i];
    }
  }

  /** A new process on any part of the pass's log, cut outside the windows, ends the pass as the old one would have. */
  lemma PassCutHeals(e: Engine, h: seq<Fill>, fills: seq<Fill>, n: nat)
    requires Current(e, h) && h <= fills && Clean(BookAll(e, fills).1) && FreshFrom(e, fills, |h|)
    requires var end := BookAll(e, fills).0.desk.log; |e.desk.log| <= n <= |end| && !InWindow(end, |e.desk.log|, n)
    ensures SameEngine(BookAll(NewProcess(e, BookAll(e, fills).0.desk.log[..n]), fills).0, BookAll(e, fills).0)
  {
    hide BookAll, BookOne, Current, FreshFrom, Clean, SameEngine, EngineSound;
    var end := BookAll(e, fills).0.desk.log;
    SettledParts(e, h);
    LogsExtend(e, fills, 0);
    if n == |e.desk.log| {
      assert end[..n] == e.desk.log;
      HealsInHistory(e, h, fills);
    } else {
      var k := FillBehind(e, fills, n);
      LogsExtend(e, fills, k);
      LogsExtend(e, fills, k + 1);
      BookedNext(e, fills, k);
      CleanUpTo(e, fills, k);
      FreshUpTo(e, fills, k, |h|);
      assert end[..n] == LogBehind(e, fills, k + 1)[..n];
      SyncHeals(e, h, fills, k, n);
    }
  }

  lemma BookedNext(e: Engine, fills: seq<Fill>, k: nat)
    requires k < |fills|
    ensures BookAll(e, fills[..k + 1]).0 == BookOne(BookAll(e, fills[..k]).0, fills[k]).0
  {
    hide BookOne;
    var upTo := fills[..k + 1];
    assert upTo[..|upTo| - 1] == fills[..k] && upTo[|upTo| - 1] == fills[k];
  }

  // ---- one crash after another ----

  function Pass(fills: seq<Fill>, shown: nat): Step
    requires shown <= |fills|
  {
    SyncFills(O.Answer(fills[..shown]))
  }

  /** Passes over a growing history, each of them cut short. */
  predicate Growing(cuts: seq<Cut>, least: nat, most: nat) {
    && (forall i :: 0 <= i < |cuts| ==> least <= cuts[i].shown <= most)
    && forall i, j :: 0 <= i < j < |cuts| ==> cuts[i].shown <= cuts[j].shown
  }

  function Crashes(fills: seq<Fill>, cuts: seq<Cut>): seq<Action>
    requires forall i :: 0 <= i < |cuts| ==> cuts[i].shown <= |fills|
  {
    seq(|cuts|, i requires 0 <= i < |cuts| => CrashDuring(Pass(fills, cuts[i].shown), cuts[i].persisted))
  }

  /** No crash leaves a log that ends in a creation or a close the whole pass goes on from. */
  predicate OutsideWindows(e: Engine, fills: seq<Fill>, cuts: seq<Cut>)
    requires forall i :: 0 <= i < |cuts| ==> cuts[i].shown <= |fills|
  {
    forall i :: 0 < i <= |cuts| ==>
      !InWindow(BookAll(e, fills).0.desk.log, |e.desk.log|, |Run(e, Crashes(fills, cuts)[..i]).desk.log|)
  }

  /** Where the crashes have left things: the old process, or a new one somewhere on the log of the uninterrupted pass. */
  ghost predicate OnTheWay(e: Engine, fills: seq<Fill>, shown: nat, p: Engine)
    requires shown <= |fills|
  {
    p == e ||
    (e.desk.log <= p.desk.log <= LogBehind(e, fills, shown) && p == NewProcess(e, p.desk.log)
     && !InWindow(BookAll(e, fills).0.desk.log, |e.desk.log|, |p.desk.log|))
  }

  lemma PassLands(e: Engine, h: seq<Fill>, fills: seq<Fill>, before: nat, shown: nat, p: Engine)
    requires Current(e, h) && |h| <= shown && before <= shown <= |fills| && h <= fills
    requires Clean(BookAll(e, fills).1) && FreshFrom(e, fills, |h|) && OnTheWay(e, fills, before, p)
    ensures SameEngine(BookAll(p, fills[..shown]).0, BookAll(e, fills[..shown]).0)
    ensures p.om == e.om && p.desk.pm == e.desk.pm && p.desk.leverage == e.desk.leverage
    ensures p.desk.log <= LogBehind(e, fills, shown)
  {
    hide BookAll, Current, FreshFrom, Clean, EngineSound;
    SettledParts(e, h);
    LogsExtend(e, fills, shown);
    if p != e {
      var upTo := fills[..shown];
      assert upTo[..before] == fills[..before];
      LogsExtend(e, upTo, before);
      CleanUpTo(e, fills, shown);
      FreshUpTo(e, fills, shown, |h|);
      PassCutHeals(e, h, upTo, |p.desk.log|);
      assert LogBehind(e, fills, shown)[..|p.desk.log|] == p.desk.log;
    }
  }

  lemma CrashLands(e: Engine, h: seq<Fill>, fills: seq<Fill>, before: nat, cut: Cut, p: Engine)
    requires Current(e, h) && |h| <= cut.shown && before <= cut.shown <= |fills| && h <= fills
    requires Clean(BookAll(e, fills).1) && FreshFrom(e, fills, |h|) && OnTheWay(e, fills, before, p)
    requires var p' := Act(p, CrashDuring(Pass(fills, cut.shown), cut.persisted));
      !InWindow(BookAll(e, fills).0.desk.log, |e.desk.log|, |p'.desk.log|)
    ensures OnTheWay(e, fills, cut.shown, Act(p, CrashDuring(Pass(fills, cut.shown), cut.persisted)))
  {
    hide BookAll, Current, FreshFrom, Clean, EngineSound;
    PassLands(e, h, fills, before, cut.shown, p);
    SettledParts(e, h);
    LogsExtend(e, fills, cut.shown);
    var after := LogBehind(e, fills, cut.shown);
    var n := if |p.desk.log| + cut.persisted <= |after| then |p.desk.log| + cut.persisted else |after|;
    SameNewProcess(e, p, after[..n]);
  }

  lemma {:induction false} CrashesLand(e: Engine, h: seq<Fill>, fills: seq<Fill>, cuts: seq<Cut>, shown: nat)
    requires Current(e, h) && h <= fills && Clean(BookAll(e, fills).1) && FreshFrom(e, fills, |h|)
    requires shown <= |fills| && Growing(cuts, |h|, shown) && OutsideWindows(e, fills, cuts)
    ensures OnTheWay(e, fills, shown, Run(e, Crashes(fills, cuts)))
  {
    hide BookAll, Current, FreshFrom, Clean, InWindow, OnTheWay, Act;
    var actions := Crashes(fills, cuts);
    if cuts == [] {
      StartsOnTheWay(e, fills, shown);
    } else {
      var front, cut := cuts[..|cuts| - 1], cuts[|cuts| - 1];
      assert actions[..|actions| - 1] == Crashes(fills, front);
      assert forall i :: 0 < i <= |front| ==> Crashes(fills, front)[..i] == actions[..i];
      assert actions[..|cuts|] == actions;
      CrashesLand(e, h, fills, front, cut.shown);
      CrashLands(e, h, fills, cut.shown, cut, Run(e, Crashes(fills, front)));
      LaterOnTheWay(e, h, fills, cut.shown, shown, Run(e, actions));
    }
  }

  lemma StartsOnTheWay(e: Engine, fills: seq<Fill>, shown: nat)
    requires shown <= |fills|
    ensures OnTheWay(e, fills, shown, e)
  {
  }

  lemma LaterOnTheWay(e: Engine, h: seq<Fill>, fills: seq<Fill>, shown: nat, later: nat, p: Engine)
    requires Current(e, h) && shown <= later <= |fills| && OnTheWay(e, fills, shown, p)
    ensures OnTheWay(e, fills, later, p)
  {
    hide BookAll, Current, EngineSound;
    SettledParts(e, h);
    var upTo := fills[..later];
    assert upTo[..shown] == fills[..shown];
    LogsExtend(e, upTo, shown);
  }

  /**
   A pass may be cut short any number of times.  A process that has settled a history dies
   in a pass over a longer one; so does the next process, with nothing counted, and the one
   after it, while the venue's history may grow from pass to pass.  When no crash came
   right behind a creation or a close, the pass that goes through ends everything as if the
   first had gone through.
   */
  lemma CrashesHeal(e: Engine, h: seq<Fill>, fills: seq<Fill>, cuts: seq<Cut>)
    requires Current(e, h) && h <= fills && Clean(BookAll(e, fills).1) && FreshFrom(e, fills, |h|)
    requires Growing(cuts, |h|, |fills|) && OutsideWindows(e, fills, cuts)
    ensures SameEngine(BookAll(Run(e, Crashes(fills, cuts)), fills).0, BookAll(e, fills).0)
  {
    hide BookAll, Current, FreshFrom, Clean, OnTheWay, Run, OutsideWindows, InWindow;
    CrashesLand(e, h, fills, cuts, |fills|);
    PassLands(e, h, fills, |fills|, |fills|, Run(e, Crashes(fills, cuts)));
    assert fills[..|fills|] == fills;
  }

  /** At any point of any diligent run, a pass cut short any number of times outside the windows heals. */
  lemma ReachableCrashesHeal(pm: string, leverage: Leverage, actions: seq<Action>, c: Watch, m: nat, cuts: seq<Cut>)
    requires Venue(c.fills) && (c.who != {} ==> leverage > 0.0) && Diligent(Empty(c.om, pm, leverage), actions, c)
    requires m <= |c.fills| && Seen(actions) <= c.fills[..m] && Growing(cuts, |Seen(actions)|, m)
    requires var e := Run(Empty(c.om, pm, leverage), actions);
      Clean(BookAll(e, c.fills[..m]).1) && OutsideWindows(e, c.fills[..m], cuts)
    ensures var e := Run(Empty(c.om, pm, leverage), actions);
      SameEngine(BookAll(Run(e, Crashes(c.fills[..m], cuts)), c.fills[..m]).0, BookAll(e, c.fills[..m]).0)
  {
    hide Current, Diligent, Clean, BookAll, FreshFrom, OutsideWindows;
    RunIsCurrent(pm, leverage, actions, c);
    var e := Run(Empty(c.om, pm, leverage), actions);
    PassIsFresh(e, c, m, |Seen(actions)|);
    CrashesHeal(e, Seen(actions), c.fills[..m], cuts);
  }
}
