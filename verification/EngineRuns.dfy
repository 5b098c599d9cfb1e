/**
 Whole runs of one engine: orders placed, amended and cancelled, levels recorded, fills
 booked, portfolio requests, and crashes after any event.
 */
module EngineRuns {
  import opened Wrappers
  import opened EventLog
  import opened Records
  import opened Accounting
  import opened AccountingRuns
  import opened CrashHealing
  import OS = OrderStates
  import O = Orders
  import OH = OrderHistory
  import OR = OrderRuns
  import P = Positions
  import L = Portfolio

  datatype Step =
    | Trade(call: O.Call)
    | Execute(executions: seq<Execution>)
    | SyncFills(fetched: O.Reply<seq<Fill>>)
    | Request(request: L.Request)

  datatype Action = Complete(step: Step) | CrashDuring(step: Step, persisted: nat)

  function Do(e: Engine, s: Step): Engine {
    match s
    case Trade(call) =>
      var w := O.Do(OrderWorld(e), call).0;
      Engine(e.om, w.mem, e.desk.(log := w.log))
    case Execute(xs) => e.(desk := RecordAllLevels(e.desk, xs))
    case SyncFills(fetched) => Sync(e, fetched).0
    case Request(q) => e.(desk := Ask(e.desk, q).0)
  }

  /** A new process: nothing counted yet, everything else from the log. */
  function NewProcess(e: Engine, log: Log): Engine {
    Restarted(e.(desk := e.desk.(closed := map[], counted := {})), log)
  }

  function Act(e: Engine, a: Action): Engine {
    match a
    case Complete(s) => Do(e, s)
    case CrashDuring(s, k) =>
      var after := Do(e, s).desk.log;
      NewProcess(e, after[..if |e.desk.log| + k <= |after| then |e.desk.log| + k else |after|])
  }

  function Run(e: Engine, actions: seq<Action>): Engine {
    if actions == [] then e
    else Act(Run(e, actions[..|actions| - 1]), actions[|actions| - 1])
  }

  function Empty(om: string, pm: string, leverage: Leverage): Engine {
    Engine(om, O.Initial, Desk(pm, leverage, [], P.Initial, L.Initial, map[], [], map[], {}))
  }

  // ---- order calls, seen from the desk ----

  ghost predicate OrdersOnly(log: Log, longer: Log) {
    log <= longer && forall i :: |log| <= i < |longer| ==> longer[i].payload.Order? && SameSource(longer[i].key, longer[i].payload)
  }

  ghost predicate TradedFrom(w0: O.World, w: O.World) {
    OR.GoodFrom(w0, w) && OrdersOnly(w0.log, w.log)
  }

  lemma PersistTraded(w0: O.World, w: O.World, key: OrderKey, r: OrderRecord)
    requires TradedFrom(w0, w) && OR.PlainOk(w, key, r)
    ensures TradedFrom(w0, O.Persist(w, key, r))
  {
    OR.PersistKeepsFrom(w0, w, key, r);
  }

  lemma ClaimTraded(w0: O.World, w: O.World, key: OrderKey, r: OrderRecord)
    requires TradedFrom(w0, w) && OR.ClaimOk(w, key, r)
    ensures !HasKey(w.log, ForOrder(key))
    ensures TradedFrom(w0, OR.Claim(w, key, r)) && TradedFrom(w0, O.Transmit(OR.Claim(w, key, r), OH.IdOf(key)))
  {
    hide OR.GoodFrom, O.Apply;
    OR.ClaimKeepsFrom(w0, w, key, r);
  }

  lemma TradeKeptByPersist(w0: O.World)
    ensures OR.KeptByPersist(w => TradedFrom(w0, w))
  {
    forall w, key, r | TradedFrom(w0, w) && OR.PlainOk(w, key, r)
      ensures TradedFrom(w0, O.Persist(w, key, r))
    {
      PersistTraded(w0, w, key, r);
    }
  }

  lemma TradeKeptByClaim(w0: O.World)
    ensures OR.KeptByClaim(w => TradedFrom(w0, w))
  {
    forall w, key, r | TradedFrom(w0, w) && OR.ClaimOk(w, key, r)
      ensures !HasKey(w.log, ForOrder(key))
      ensures TradedFrom(w0, OR.Claim(w, key, r)) && TradedFrom(w0, O.Transmit(OR.Claim(w, key, r), OH.IdOf(key)))
    {
      ClaimTraded(w0, w, key, r);
    }
  }

  lemma LateFillTraded(w0: O.World, w: O.World, cid: string, id: string)
    requires TradedFrom(w0, w) && cid in w.mem.snapshots && OS.Terminal(w.mem.snapshots[cid].state)
    ensures TradedFrom(w0, O.LateFill(w, cid, id))
  {
  }

  lemma TradeKeptByLateFill(w0: O.World)
    ensures OR.KeptByLateFill(w => TradedFrom(w0, w))
  {
    forall w, cid, id | TradedFrom(w0, w) && cid in w.mem.snapshots && OS.Terminal(w.mem.snapshots[cid].state)
      ensures TradedFrom(w0, O.LateFill(w, cid, id))
    {
      LateFillTraded(w0, w, cid, id);
    }
  }

  lemma TradeIsKept(w0: O.World)
    ensures OR.Kept(w => TradedFrom(w0, w))
  {
    forall w | TradedFrom(w0, w)
      ensures OR.IdsInOrder(w)
    {
      OR.GoodIdsInOrder(w);
    }
    TradeKeptByPersist(w0);
    TradeKeptByClaim(w0);
    TradeKeptByLateFill(w0);
  }

  lemma {:induction false} DeskPassesOverAll(d: Desk, longer: Log)
    requires Sound(d) && OrdersOnly(d.log, longer) && Ordered(longer)
    ensures Sound(d.(log := longer))
    decreases |longer|
  {
    if |longer| > |d.log| {
      var front := longer[..|longer| - 1];
      assert longer == front + [longer[|longer| - 1]];
      DeskPassesOverAll(d, front);
      DeskPassesOver(d.(log := front), longer[|longer| - 1]);
    } else {
      assert longer == d.log;
    }
  }

  lemma TradeKeeps(e: Engine, call: O.Call)
    requires EngineSound(e)
    ensures EngineSound(Do(e, Trade(call))) && e.desk.log <= Do(e, Trade(call)).desk.log
  {
    var w0 := OrderWorld(e);
    TradeIsKept(w0);
    OR.DoKeeps(w => TradedFrom(w0, w), w0, call);
    var w := O.Do(w0, call).0;
    DeskPassesOverAll(e.desk, w.log);
    UnsentIsGood(w);
  }

  /** What was transmitted is not part of the engine. */
  lemma UnsentIsGood(w: O.World)
    requires OR.Good(w)
    ensures OR.Good(w.(sent := []))
  {
  }

  // ---- the other steps ----

  lemma DeskKeepsEngine(e: Engine, d: Desk)
    requires EngineSound(e) && Follows(e.desk, d)
    ensures EngineSound(e.(desk := d)) && e.desk.log <= d.log
  {
    OrdersStayGood(OrderWorld(e), d.log);
  }

  lemma {:induction false} LevelsFollow(d: Desk, xs: seq<Execution>)
    requires Sound(d)
    ensures Follows(d, RecordAllLevels(d, xs))
  {
    if xs != [] {
      var d1 := RecordAllLevels(d, xs[..|xs| - 1]);
      LevelsFollow(d, xs[..|xs| - 1]);
      RecordLevelsSteps(d1, xs[|xs| - 1]);
      FollowsOn(d, d1, RecordAllLevels(d, xs));
    }
  }

  lemma {:induction false} BookAllKeeps(e: Engine, fills: seq<Fill>)
    requires EngineSound(e)
    ensures EngineSound(BookAll(e, fills).0) && e.desk.log <= BookAll(e, fills).0.desk.log
    ensures BookAll(e, fills).0.om == e.om && BookAll(e, fills).0.desk.pm == e.desk.pm
  {
    if fills != [] {
      BookAllKeeps(e, fills[..|fills| - 1]);
      BookOneKeeps(BookAll(e, fills[..|fills| - 1]).0, fills[|fills| - 1]);
    }
  }

  lemma DoKeeps(e: Engine, s: Step)
    requires EngineSound(e)
    ensures EngineSound(Do(e, s)) && e.desk.log <= Do(e, s).desk.log
  {
    match s
    case Trade(call) => TradeKeeps(e, call);
    case Execute(xs) =>
      LevelsFollow(e.desk, xs);
      DeskKeepsEngine(e, RecordAllLevels(e.desk, xs));
    case SyncFills(fetched) =>
      if fetched.Answer? {
        BookAllKeeps(e, fetched.value);
      }
    case Request(q) =>
      AskSteps(e.desk, q);
      DeskKeepsEngine(e, Ask(e.desk, q).0);
  }

  lemma RestartKeeps(e: Engine, log: Log, n: nat)
    requires LogSound(e.desk.pm, log) && OH.Proper(e.om, log) && n <= |log|
    ensures EngineSound(Restarted(e, log[..n]))
  {
    LogSoundPrefix(e.desk.pm, log, n);
    OH.ProperPrefix(e.om, log, n);
  }

  /**
   On every run with crashes anywhere, the log replays in every ledger, the desk in memory
   is the one a new process would build from it, and the orders agree up to late fills.
   */
  lemma {:induction false} RunIsSound(om: string, pm: string, leverage: Leverage, actions: seq<Action>)
    ensures var e := Run(Empty(om, pm, leverage), actions);
            EngineSound(e) && e.om == om && e.desk.pm == pm && e.desk.leverage == leverage
  {
    if actions != [] {
      var e, a := Run(Empty(om, pm, leverage), actions[..|actions| - 1]), actions[|actions| - 1];
      RunIsSound(om, pm, leverage, actions[..|actions| - 1]);
      DoKeeps(e, a.step);
      DoKeepsNames(e, a.step);
      if a.CrashDuring? {
        var after := Do(e, a.step);
        var n := if |e.desk.log| + a.persisted <= |after.desk.log| then |e.desk.log| + a.persisted else |after.desk.log|;
        RestartKeeps(e.(desk := e.desk.(closed := map[], counted := {})), after.desk.log, n);
      }
    }
  }

  lemma DoKeepsNames(e: Engine, s: Step)
    requires EngineSound(e)
    ensures Do(e, s).om == e.om && Do(e, s).desk.pm == e.desk.pm && Do(e, s).desk.leverage == e.desk.leverage
  {
    match s
    case Trade(_) =>
    case Execute(xs) => LevelsFollow(e.desk, xs);
    case SyncFills(fetched) =>
      if fetched.Answer? {
        BookAllKeepsLeverage(e, fetched.value);
      }
    case Request(_) =>
  }

  lemma {:induction false} BookAllKeepsLeverage(e: Engine, fills: seq<Fill>)
    requires EngineSound(e)
    ensures BookAll(e, fills).0.desk.leverage == e.desk.leverage && BookAll(e, fills).0.om == e.om
    ensures BookAll(e, fills).0.desk.pm == e.desk.pm
  {
    if fills != [] {
      var front, f := fills[..|fills| - 1], fills[|fills| - 1];
      BookAllKeepsLeverage(e, front);
      BookAllKeeps(e, front);
      BookOneKeeps(BookAll(e, front).0, f);
      BookOneKeepsLeverage(BookAll(e, front).0, f);
    }
  }

  lemma BookOneKeepsLeverage(e: Engine, f: Fill)
    requires EngineSound(e)
    ensures BookOne(e, f).0.desk.leverage == e.desk.leverage
  {
    var (w, out) := Reported(e, f);
    ReportSteps(e, f);
    if out.Snap? {
      BookFollows(e.desk.(log := w.log), f, out.snapshot.terms);
    }
  }
}
