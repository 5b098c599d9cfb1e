/**
 The money of one position over whole runs: passes over a growing history, other positions,
 orders, requests, and crashes anywhere but between its close and its release.
 */
module PositionCycle {
  import opened Wrappers
  import opened EventLog
  import opened Records
  import opened Accounting
  import opened EngineRuns
  import opened FillTrail
  import opened TrailRuns
  import opened SyncHealing
  import opened PassRuns
  import opened PositionMoney
  import opened Sums
  import P = Positions
  import PH = PositionHistory
  import L = Portfolio

  /** What a position earns: a long exit less entry notional, a short the reverse, both less the exit fees. */
  function Profit(side: Side, entries: seq<Fill>, exits: seq<Fill>): real {
    if side == Buy then Total(exits, OfNotional) - Total(entries, OfNotional) - Total(exits, OfFee)
    else Total(entries, OfNotional) - Total(exits, OfNotional) - Total(exits, OfFee)
  }

  function Cost(avg: real, quantity: real): real {
    avg * quantity
  }

  lemma ProfitOfExits(exits: seq<Fill>, entries: seq<Fill>, side: Side, avg: real)
    requires Cost(avg, Total(exits, OfQuantity)) == Total(entries, OfNotional)
    ensures Total(exits, OfProfit(side, avg)) == Profit(side, entries, exits)
  {
    hide Total;
    ProfitTelescopes(exits, side, avg);
  }

  /** The average price times what was filled is the notional of the entry fills. */
  lemma CostOfEntries(e: Engine, c: Watch, pid: string)
    requires EngineTracked(e, c) && pid in e.desk.positions.snapshots
    ensures var s, entries := e.desk.positions.snapshots[pid], Entries(e.desk.log, c.fills, pid);
      && s.filled == Total(entries, OfQuantity)
      && (s.avg.Some? ==> Cost(s.avg.value, s.filled) == Total(entries, OfNotional))
  {
    hide Cost, PH.Balanced, PH.Notional, PH.Quantity, Venue, Total, On;
    var log := e.desk.log;
    EntriesAddUp(e.desk.pm, log, c.fills, c.who, pid);
    PH.BooksBalance(e.desk.pm, log, pid);
    CostOfParts(e.desk.positions.snapshots[pid], PH.EntryParts(log, pid), PH.ExitLegs(log, pid), PH.FundingTotal(log, pid));
  }

  lemma CostOfParts(s: P.Snapshot, parts: seq<PH.Part>, legs: seq<Leg>, funding: real)
    requires PH.Balanced(s, parts, legs, funding)
    ensures s.filled == PH.Quantity(parts)
    ensures s.avg.Some? ==> Cost(s.avg.value, s.filled) == PH.Notional(parts)
  {
    assert parts == [] ==> PH.Quantity(parts) == 0.0 && PH.Notional(parts) == 0.0;
  }

  /** Full entry before the first exit, on the log and in the venue's order. */
  predicate EntersThenExits(log: Log, fills: seq<Fill>, pid: string) {
    EnteredFirst(log, pid) && InTurn(log, fills, pid)
  }

  predicate DeadIn(e: Engine, pid: string) {
    pid in e.desk.positions.snapshots && Dead(e.desk.positions.snapshots[pid].state)
  }

  lemma TrackedProfit(e: Engine, c: Watch, pid: string)
    requires EngineTracked(e, c) && pid in c.who && EnteredFirst(e.desk.log, pid)
    ensures var entries, exits := Entries(e.desk.log, c.fills, pid), Exits(e.desk.log, c.fills, pid);
      exits != [] && Total(exits, OfQuantity) == Total(entries, OfQuantity) ==>
        && pid in e.desk.positions.snapshots
        && Profits(e.desk.log, pid) == Profit(e.desk.positions.snapshots[pid].terms.side, entries, exits)
  {
    hide Profit, Cost;
    var log := e.desk.log;
    ProfitsAddUp(e.desk.pm, log, c.fills, c.who, pid);
    var entries, exits := Entries(log, c.fills, pid), Exits(log, c.fills, pid);
    if exits != [] && Total(exits, OfQuantity) == Total(entries, OfQuantity) {
      CostOfEntries(e, c, pid);
      var s := e.desk.positions.snapshots[pid];
      ProfitOfExits(exits, entries, s.terms.side, s.avg.value);
    }
  }

  lemma TrackedClose(e: Engine, c: Watch, pid: string)
    requires EngineTracked(e, c) && pid in c.who && DeadIn(e, pid)
    ensures L.HoldsNothing(e.desk.ledger, pid)
    ensures InTurn(e.desk.log, c.fills, pid) ==> Charges(e.desk.log, pid) == Total(Entries(e.desk.log, c.fills, pid), OfCharge)
  {
    var log := e.desk.log;
    DeadHoldsNothing(e.desk.pm, log, c.fills, c.who, pid);
    if InTurn(log, c.fills, pid) {
      FeesUpWhenDead(e.desk.pm, log, c.fills, c.who, pid);
      ChargesAddUp(log, c.fills, c.who, pid);
      forall f | f in c.fills && HasKey(log, FeeOf(pid)(f.id))
        ensures HasKey(log, EntryOf(pid)(f.id)) && f.fee > 0.0
      {
        ChargedIsEntry(log, c.fills, c.who, pid, f);
      }
      ChargesOfEntries(log, c.fills, c.fills, pid);
    }
  }

  /**
   A close telescopes, over any run: passes over growing histories with every fill shown any
   number of times, other positions, orders and requests in between, and crashes anywhere
   but between this position's close and its release.  At every point the position's part
   of the ledger is its profits, funding, charges and margin.  Once its exits on the log
   add up to its entries, whatever their number and order, those profits are for a long
   exit notional less entry notional, for a short entry notional less exit notional, and
   less the exit fees for both; and once it is closed it holds no margin and its charges
   are the fees of its entries.
   */
  lemma CloseTelescopes(pm: string, leverage: Leverage, actions: seq<Action>, c: Watch, pid: string)
    requires Venue(c.fills) && pid in c.who && leverage > 0.0 && FairRun(Empty(c.om, pm, leverage), actions, c)
    ensures var e := Run(Empty(c.om, pm, leverage), actions);
            var log := e.desk.log;
            var entries, exits := Entries(log, c.fills, pid), Exits(log, c.fills, pid);
      && Apart(e.desk.ledger, L.Replay(Without(log, pid)), pid, Profits(log, pid), Fundings(log, pid), Charges(log, pid))
      && (EnteredFirst(log, pid) && exits != [] && Total(exits, OfQuantity) == Total(entries, OfQuantity) ==>
            && pid in e.desk.positions.snapshots
            && Profits(log, pid) == Profit(e.desk.positions.snapshots[pid].terms.side, entries, exits))
      && (DeadIn(e, pid) ==> L.HoldsNothing(e.desk.ledger, pid))
      && (DeadIn(e, pid) && InTurn(log, c.fills, pid) ==> Charges(log, pid) == Total(entries, OfCharge))
  {
    hide Apart, Profit, Profits, Charges, Fundings, EnteredFirst, InTurn, Venue, FairRun, L.HoldsNothing;
    RunIsTracked(pm, leverage, actions, c);
    var e := Run(Empty(c.om, pm, leverage), actions);
    LedgerByPosition(e.desk.log, pid);
    if EnteredFirst(e.desk.log, pid) {
      TrackedProfit(e, c, pid);
    }
    if DeadIn(e, pid) {
      TrackedClose(e, c, pid);
    }
  }

  // ---- the close does come ----

  lemma {:induction false} TallyIdsAreSeen(e: Engine, h: seq<Fill>, id: string)
    requires id in Tally(e, h).counted
    ensures exists i :: 0 <= i < |h| && h[i].id == id
  {
    var f := h[|h| - 1];
    if f.id != id {
      TallyIdsAreSeen(e, h[..|h| - 1], id);
      var i :| 0 <= i < |h| - 1 && h[..|h| - 1][i].id == id;
      assert h[i].id == id;
    }
  }

  /** Counted for a position are exactly the exits whose profit is on the log. */
  lemma CountedOrNot(e: Engine, c: Watch, h: seq<Fill>, f: Fill, pid: string)
    requires EngineTracked(e, c) && pid in c.who && f in c.fills && SettledIn(e, f)
    ensures HasKey(e.desk.log, RealizedOf(pid)(f.id)) <==>
            ReduceOnly(e.desk.log, f.cid) == Some(true) && Lookup(e.desk.mapped, f.cid) == Some(pid)
  {
    if HasKey(e.desk.log, RealizedOf(pid)(f.id)) {
      RealizedIsMapped(c.om, e.desk.pm, e.desk.log, c.fills, c.who, pid, f);
    }
  }

  lemma {:induction false} CountIsVolume(e: Engine, c: Watch, h: seq<Fill>, k: nat, pid: string)
    requires EngineTracked(e, c) && pid in c.who && Current(e, h) && h <= c.fills && k <= |h|
    ensures At(Tally(e, h[..k]).closed, pid) == Total(Exits(e.desk.log, h[..k], pid), OfQuantity)
  {
    hide EngineTracked, SettledIn, ReduceOnly, Count, Tally, Exits, Total, HasKey, Lookup;
    if k == 0 {
      CountOfNothing(e, h[..k], pid);
    } else {
      var upTo, f := h[..k], h[k - 1];
      assert upTo[..|upTo| - 1] == h[..k - 1] && upTo[|upTo| - 1] == f;
      CountIsVolume(e, c, h, k - 1, pid);
      assert f == c.fills[k - 1] && f in h;
      CountedOrNot(e, c, h, f, pid);
      FirstCount(e, c, h, k - 1);
      TallyAdds(e, upTo, pid);
      ExitsAdd(e.desk.log, upTo, pid);
    }
  }

  lemma CountOfNothing(e: Engine, h: seq<Fill>, pid: string)
    requires h == []
    ensures At(Tally(e, h).closed, pid) == 0.0 == Total(Exits(e.desk.log, h, pid), OfQuantity)
  {
  }

  lemma TallyAdds(e: Engine, h: seq<Fill>, pid: string)
    requires h != [] && h[|h| - 1].id !in Tally(e, h[..|h| - 1]).counted
    ensures var f := h[|h| - 1];
      At(Tally(e, h).closed, pid) == At(Tally(e, h[..|h| - 1]).closed, pid)
        + (if ReduceOnly(e.desk.log, f.cid) == Some(true) && Lookup(e.desk.mapped, f.cid) == Some(pid) then f.quantity else 0.0)
  {
    hide ReduceOnly, Count, Lookup;
    var f := h[|h| - 1];
    if Lookup(e.desk.mapped, f.cid).Some? {
      CountAdds(Tally(e, h[..|h| - 1]), Lookup(e.desk.mapped, f.cid).value, f, pid);
    }
  }

  lemma ExitsAdd(log: Log, h: seq<Fill>, pid: string)
    requires h != []
    ensures var f := h[|h| - 1];
      Total(Exits(log, h, pid), OfQuantity) == Total(Exits(log, h[..|h| - 1], pid), OfQuantity)
        + (if HasKey(log, RealizedOf(pid)(f.id)) then f.quantity else 0.0)
  {
    hide HasKey, Total;
    var f := h[|h| - 1];
    TotalOfJoin(Exits(log, h[..|h| - 1], pid), if HasKey(log, RealizedOf(pid)(f.id)) then [f] else [], OfQuantity);
  }

  lemma CountAdds(d: Desk, other: string, f: Fill, pid: string)
    requires f.id !in d.counted
    ensures At(Count(d, other, f).closed, pid) == At(d.closed, pid) + (if other == pid then f.quantity else 0.0)
  {
  }

  lemma FirstCount(e: Engine, c: Watch, h: seq<Fill>, k: nat)
    requires EngineTracked(e, c) && h <= c.fills && k < |h|
    ensures h[k].id !in Tally(e, h[..k]).counted
  {
    if h[k].id in Tally(e, h[..k]).counted {
      TallyIdsAreSeen(e, h[..k], h[k].id);
      assert false;
    }
  }

  lemma {:induction false} OnIsPart(log: Log, fills: seq<Fill>, key: string -> Key) returns (f: Fill)
    requires On(log, fills, key) != []
    ensures f in fills && HasKey(log, key(f.id))
  {
    f := fills[|fills| - 1];
    if !HasKey(log, key(f.id)) {
      f := OnIsPart(log, fills[..|fills| - 1], key);
    }
  }

  /** Once a process has settled exits for all that was filled, the position is closed. */
  lemma SettledCloses(e: Engine, c: Watch, h: seq<Fill>, pid: string)
    requires EngineTracked(e, c) && pid in c.who && Current(e, h) && h <= c.fills
    requires var exits := Exits(e.desk.log, h, pid);
      exits != [] && pid in e.desk.positions.snapshots && Total(exits, OfQuantity) >= e.desk.positions.snapshots[pid].filled
    ensures DeadIn(e, pid)
  {
    CountIsVolume(e, c, h, |h|, pid);
    assert h[..|h|] == h;
    var f := OnIsPart(e.desk.log, h, RealizedOf(pid));
    var i :| 0 <= i < |h| && h[i] == f;
    assert c.fills[i] == f;
    CountedOrNot(e, c, h, f, pid);
    if !DeadIn(e, pid) {
      TakenIsEntry(c.om, e.desk.pm, e.desk.log, c.fills, c.who, pid, f);
      assert false;
    }
  }

  /**
   The round trip, over any diligent run.  When the running process has seen the whole
   history, and a position's exits in it add up to its entries, the position is closed and
   holds no margin; realised profit and cash differ from those of a log without it by the
   telescoped profit, cash also by its funding and the fees of its entries.
   */
  lemma RoundTrip(pm: string, leverage: Leverage, actions: seq<Action>, c: Watch, pid: string)
    requires Venue(c.fills) && pid in c.who && leverage > 0.0 && Diligent(Empty(c.om, pm, leverage), actions, c)
    requires Seen(actions) == c.fills
    requires var log := Run(Empty(c.om, pm, leverage), actions).desk.log;
             var exits := Exits(log, c.fills, pid);
      EntersThenExits(log, c.fills, pid) && exits != [] && Total(exits, OfQuantity) == Total(Entries(log, c.fills, pid), OfQuantity)
    ensures var e := Run(Empty(c.om, pm, leverage), actions);
            var log := e.desk.log;
            var entries, exits := Entries(log, c.fills, pid), Exits(log, c.fills, pid);
            var rest := L.Replay(Without(log, pid));
      && DeadIn(e, pid) && L.HoldsNothing(e.desk.ledger, pid)
      && var profit := Profit(e.desk.positions.snapshots[pid].terms.side, entries, exits);
         && e.desk.ledger.realized == rest.realized + profit
         && e.desk.ledger.cash == rest.cash + profit + Fundings(log, pid) - Total(entries, OfCharge)
  {
    var e := Run(Empty(c.om, pm, leverage), actions);
    RunIsCurrent(pm, leverage, actions, c);
    hide Current, Diligent, Venue, Profit, Profits, Fundings, Charges, EnteredFirst, InTurn, EngineTracked, FairRun;
    TrackedProfit(e, c, pid);
    FilledIsEntered(e, c, pid);
    SettledCloses(e, c, c.fills, pid);
    TrackedClose(e, c, pid);
    LedgerByPosition(e.desk.log, pid);
  }

  lemma FilledIsEntered(e: Engine, c: Watch, pid: string)
    requires EngineTracked(e, c) && pid in e.desk.positions.snapshots
    ensures e.desk.positions.snapshots[pid].filled == Total(Entries(e.desk.log, c.fills, pid), OfQuantity)
  {
    CostOfEntries(e, c, pid);
  }
}
