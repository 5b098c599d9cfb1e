/**
 Where the entries of the position and portfolio ledgers come from: each is backed by one of
 the venue's fills, and by what the log said before it.
 */
module FillTrail {
  import opened Wrappers
  import opened EventLog
  import opened Records
  import opened Accounting
  import opened AccountingRuns
  import PS = PositionStates
  import O = Orders
  import OH = OrderHistory
  import P = Positions
  import PH = PositionHistory
  import L = Portfolio

  /** The venue's fills: every id once, none the marker of another, at positive prices. */
  predicate Venue(fills: seq<Fill>) {
    && (forall i, j :: 0 <= i < j < |fills| ==> fills[i].id != fills[j].id)
    && (forall i, j :: 0 <= i < |fills| && 0 <= j < |fills| ==> fills[i].id != P.OpenMark(fills[j].id))
    && (forall i :: 0 <= i < |fills| ==> fills[i].price > 0.0)
  }

  lemma SameFill(fills: seq<Fill>, f: Fill, g: Fill)
    requires Venue(fills) && f in fills && g in fills && f.id == g.id
    ensures f == g
  {
    var i :| 0 <= i < |fills| && fills[i] == f;
    var j :| 0 <= j < |fills| && fills[j] == g;
  }

  // ---- what a log says ----

  function Books(log: Log): P.Memory {
    P.Replay(log).GetOr(P.Initial)
  }

  predicate DeadOn(log: Log, pid: string) {
    pid in Books(log).snapshots && Dead(Books(log).snapshots[pid].state)
  }

  predicate AliveOn(log: Log, pid: string) {
    pid in Books(log).snapshots && !Dead(Books(log).snapshots[pid].state)
  }

  /** Whether an order may only reduce; None for an order the log does not know. */
  function ReduceOnly(log: Log, cid: string): Option<bool> {
    var m := O.Replay(log).GetOr(O.Initial);
    if cid in m.snapshots then Some(m.snapshots[cid].terms.reduceOnly) else None
  }

  /** The order ledger has the fill, or its order is finished. */
  predicate OrderTook(log: Log, f: Fill) {
    OH.Taken(O.Replay(log).GetOr(O.Initial), f.cid, f.id)
  }

  function EntryOf(pid: string): string -> Key {
    id => ForPosition(EntryKey(pid, id))
  }

  function RealizedOf(pid: string): string -> Key {
    id => ForPortfolio(RealizedKey(pid, id))
  }

  function FeeOf(pid: string): string -> Key {
    id => ForPortfolio(FeeKey(pid, id))
  }

  /** In the venue's order the position's entry fills come before its exit fills. */
  predicate InTurn(log: Log, fills: seq<Fill>, pid: string) {
    forall i, k ::
      0 <= i < |fills| && 0 <= k < |fills| && HasKey(log, EntryOf(pid)(fills[i].id)) && HasKey(log, RealizedOf(pid)(fills[k].id)) ==>
        i < k
  }

  /** The ledger has the fee of every entry fill on record. */
  predicate FeesUp(log: Log, fills: seq<Fill>, pid: string) {
    forall f :: f in fills && f.fee > 0.0 && HasKey(log, EntryOf(pid)(f.id)) ==> HasKey(log, FeeOf(pid)(f.id))
  }

  // ---- what backs an entry ----

  predicate EntersWith(before: Log, r: PositionRecord, f: Fill)
    requires r.EntryFill?
  {
    && f.id == r.fillId && f.price == r.price && f.quantity == r.quantity && f.fee == r.fee
    && ReduceOnly(before, f.cid) == Some(false) && Lookup(MappedOn(before), f.cid) == Some(r.pid) && OrderTook(before, f)
  }

  /** Entries come from fills of orders that may open; positions are only ever closed whole. */
  predicate PositionBacked(before: Log, r: PositionRecord, fills: seq<Fill>, who: set<string>) {
    match r
    case Created(_, _, _) => true
    case FirstTouch(_, fillId, _) => exists f :: f in fills && f.id == fillId
    case EntryFill(_, _, _, _, _, _, _, _) => exists f :: f in fills && EntersWith(before, r, f)
    case Exit(pid, t, _, _, _, _) => t == PS.Close && (pid in who && InTurn(before, fills, pid) ==> FeesUp(before, fills, pid))
    case Moved(_, _, _, _) => false
    case FundingPaid(_, _, _) => true
  }

  /** What one exit fill earns: a long sells above its average price, a short buys back below it. */
  function Earned(side: Side, avg: real, f: Fill): real {
    if side == Buy then f.price * f.quantity - avg * f.quantity - f.fee
    else avg * f.quantity - f.price * f.quantity - f.fee
  }

  lemma RealizedIsEarned(side: Side, avg: real, f: Fill)
    ensures Realized(side, avg, f) == Earned(side, avg, f)
  {
  }

  /** The profit of one exit fill of this position, at the average price the log has by then. */
  predicate RealizedBy(before: Log, pid: string, amount: real, f: Fill) {
    && Lookup(MappedOn(before), f.cid) == Some(pid) && ReduceOnly(before, f.cid) == Some(true)
    && pid in Books(before).snapshots
    && var s := Books(before).snapshots[pid];
       s.avg.Some? && amount == Earned(s.terms.side, s.avg.value, f)
  }

  predicate LedgerBacked(before: Log, key: PortfolioKey, r: PortfolioRecord, fills: seq<Fill>) {
    match r
    case Reserved(pid, _) => AliveOn(before, pid)
    case Allocated(pid, _) => AliveOn(before, pid)
    case Released(pid) => DeadOn(before, pid)
    case RealizedPnl(pid, amount) => exists f :: f in fills && key == RealizedKey(pid, f.id) && RealizedBy(before, pid, amount, f)
    case FeeBooked(pid, amount) =>
      exists f :: f in fills && key == FeeKey(pid, f.id) && amount == f.fee > 0.0 && HasKey(before, EntryOf(pid)(f.id))
    case _ => true
  }

  /** The position whose money a record moves. */
  function Whose(r: PortfolioRecord): Option<string> {
    match r
    case Reserved(pid, _) => Some(pid)
    case Allocated(pid, _) => Some(pid)
    case Released(pid) => Some(pid)
    case RealizedPnl(pid, _) => Some(pid)
    case FundingBooked(pid, _) => Some(pid)
    case FeeBooked(pid, _) => Some(pid)
    case _ => None
  }

  predicate Backed(before: Log, e: Entry, fills: seq<Fill>, who: set<string>) {
    && L.EntryFits(e)
    && (e.payload.Position? ==> PositionBacked(before, e.payload.position, fills, who))
    && (e.payload.Portfolio? && Whose(e.payload.portfolio).Some? && Whose(e.payload.portfolio).value in who ==>
          LedgerBacked(before, e.key.value.portfolioKey, e.payload.portfolio, fills))
  }

  /**
   Every position entry on the log is backed by the venue's fills, and so is every entry
   that moves the money of the positions watched.
   */
  predicate Trail(log: Log, fills: seq<Fill>, who: set<string>) {
    log == [] || (Trail(log[..|log| - 1], fills, who) && Backed(log[..|log| - 1], log[|log| - 1], fills, who))
  }

  lemma TrailSnoc(log: Log, e: Entry, fills: seq<Fill>, who: set<string>)
    requires Trail(log, fills, who) && Backed(log, e, fills, who)
    ensures Trail(log + [e], fills, who)
  {
    assert (log + [e])[..|log|] == log;
  }

  lemma {:induction false} TrailPrefix(log: Log, n: nat, fills: seq<Fill>, who: set<string>)
    requires Trail(log, fills, who) && n <= |log|
    ensures Trail(log[..n], fills, who)
    decreases |log|
  {
    if n == |log| {
      assert log[..n] == log;
    } else {
      assert log[..|log| - 1][..n] == log[..n];
      TrailPrefix(log[..|log| - 1], n, fills, who);
    }
  }

  /** Events that belong to neither ledger need no backing. */
  lemma {:induction false} TrailPassesOver(log: Log, longer: Log, fills: seq<Fill>, who: set<string>)
    requires Trail(log, fills, who) && log <= longer
    requires forall i :: |log| <= i < |longer| ==>
               !longer[i].payload.Position? && !longer[i].payload.Portfolio? && SameSource(longer[i].key, longer[i].payload)
    ensures Trail(longer, fills, who)
    decreases |longer|
  {
    if |longer| > |log| {
      var front := longer[..|longer| - 1];
      TrailPassesOver(log, front, fills, who);
    } else {
      assert longer == log;
    }
  }

  // ---- facts that stay ----

  lemma DeadStays(pm: string, log: Log, e: Entry, pid: string)
    requires PH.Proper(pm, log + [e]) && PH.Proper(pm, log) && DeadOn(log, pid)
    ensures DeadOn(log + [e], pid)
  {
    assert (log + [e])[..|log|] == log;
    if e.payload.Position? {
      PH.ApplyIsLater(pm, Books(log), e.payload.position, pid);
    }
  }

  lemma {:induction false} DeadForGood(pm: string, log: Log, n: nat, pid: string)
    requires PH.Proper(pm, log) && n <= |log| && DeadOn(log[..n], pid)
    ensures DeadOn(log, pid)
    decreases |log|
  {
    if n == |log| {
      assert log[..n] == log;
    } else {
      var front := log[..|log| - 1];
      assert front[..n] == log[..n] && front + [log[|log| - 1]] == log;
      DeadForGood(pm, front, n, pid);
      DeadStays(pm, front, log[|log| - 1], pid);
    }
  }

  lemma KindStays(om: string, log: Log, n: nat, cid: string)
    requires OH.Proper(om, log) && n <= |log| && ReduceOnly(log[..n], cid).Some?
    ensures ReduceOnly(log, cid) == ReduceOnly(log[..n], cid)
  {
    OH.OrderStays(om, log, n, cid);
  }

  // ---- which ids a position has ----

  ghost predicate IsEntryFill(log: Log, fills: seq<Fill>, id: string) {
    exists f :: f in fills && f.id == id && ReduceOnly(log, f.cid) == Some(false)
  }

  lemma EntryFillStays(om: string, log: Log, n: nat, fills: seq<Fill>, id: string)
    requires OH.Proper(om, log) && n <= |log| && IsEntryFill(log[..n], fills, id)
    ensures IsEntryFill(log, fills, id)
  {
    var f :| f in fills && f.id == id && ReduceOnly(log[..n], f.cid) == Some(false);
    KindStays(om, log, n, f.cid);
  }

  lemma LastEntry(front: Log, e: Entry, fills: seq<Fill>, who: set<string>)
    requires Backed(front, e, fills, who) && e.payload.Position? && e.payload.position.EntryFill?
    ensures IsEntryFill(front, fills, e.payload.position.fillId)
  {
  }

  /** An id recorded for a live position is that of one of the venue's entry fills. */
  lemma {:induction false} RecordedEntry(om: string, pm: string, log: Log, fills: seq<Fill>, who: set<string>, pid: string, id: string)
    requires OH.Proper(om, log) && PH.Proper(pm, log) && Trail(log, fills, who)
    requires id in PH.RecordedIds(log, pid) && !DeadOn(log, pid)
    ensures HasKey(log, EntryOf(pid)(id)) && IsEntryFill(log, fills, id)
  {
    hide IsEntryFill, ReduceOnly, OH.Proper;
    var front, e := log[..|log| - 1], log[|log| - 1];
    assert front + [e] == log;
    OH.ProperPrefix(om, log, |front|);
    if id in PH.RecordedIds(front, pid) {
      if DeadOn(front, pid) {
        DeadStays(pm, front, e, pid);
      }
      RecordedEntry(om, pm, front, fills, who, pid, id);
    } else {
      if e.payload.position.Exit? {
        ClosedIsDead(pm, front, e, fills, who, pid);
        assert false;
      }
      LastEntry(front, e, fills, who);
    }
    EntryFillStays(om, log, |front|, fills, id);
  }

  lemma ClosedIsDead(pm: string, front: Log, e: Entry, fills: seq<Fill>, who: set<string>, pid: string)
    requires PH.Proper(pm, front + [e]) && Backed(front, e, fills, who) && IsClose(e, pid)
    ensures DeadOn(front + [e], pid)
  {
    assert (front + [e])[..|front|] == front;
    hide PH.ExitFits, FeesUp, InTurn;
    ClosingApplies(pm, Books(front), e.payload.position);
  }

  lemma ClosingApplies(pm: string, m: P.Memory, r: PositionRecord)
    requires PH.Guard(pm, m, r) && r.Exit? && r.trigger == PS.Close && P.Apply(m, r).Some?
    ensures r.pid in P.Apply(m, r).value.snapshots && Dead(P.Apply(m, r).value.snapshots[r.pid].state)
  {
  }

  lemma {:induction false} OpenerIsAFill(log: Log, fills: seq<Fill>, who: set<string>, pid: string)
    requires Trail(log, fills, who) && PH.Opener(log, pid).Some?
    ensures exists f :: f in fills && f.id == PH.Opener(log, pid).value
  {
    var p := log[|log| - 1].payload;
    if !(p.Position? && p.position.FirstTouch? && p.position.pid == pid) {
      OpenerIsAFill(log[..|log| - 1], fills, who, pid);
    }
  }

  /** A fill of the venue that a live position remembers is one of its entry fills. */
  lemma TakenIsEntry(om: string, pm: string, log: Log, fills: seq<Fill>, who: set<string>, pid: string, f: Fill)
    requires OH.Proper(om, log) && PH.Proper(pm, log) && Trail(log, fills, who) && Venue(fills) && f in fills
    requires AliveOn(log, pid) && f.id in P.ProcessedOf(Books(log), pid)
    ensures HasKey(log, EntryOf(pid)(f.id)) && ReduceOnly(log, f.cid) == Some(false)
  {
    PH.ProcessedExactly(pm, log, pid);
    if f.id in PH.RecordedIds(log, pid) {
      RecordedEntry(om, pm, log, fills, who, pid, f.id);
      var g :| g in fills && g.id == f.id && ReduceOnly(log, g.cid) == Some(false);
      SameFill(fills, f, g);
    } else {
      OpenerIsAFill(log, fills, who, pid);
      assert false;
    }
  }

  lemma TookStays(om: string, log: Log, n: nat, f: Fill)
    requires OH.Proper(om, log) && n <= |log| && OrderTook(log[..n], f)
    ensures OrderTook(log, f)
  {
    OH.ProperPrefix(om, log, n);
    OH.TakenStays(om, log, n, f.cid, f.id);
  }

  /** An entry fill on record belongs to the position its order is mapped to, and its order has it. */
  lemma {:induction false} EntryIsMapped(om: string, pm: string, log: Log, fills: seq<Fill>, who: set<string>, pid: string, f: Fill)
    requires LogSound(pm, log) && OH.Proper(om, log) && Trail(log, fills, who) && Venue(fills) && f in fills
    requires HasKey(log, EntryOf(pid)(f.id))
    ensures Lookup(MappedOn(log), f.cid) == Some(pid) && OrderTook(log, f)
  {
    hide Venue, MappedOn, Lookup, ReduceOnly, OrderTook, PH.Guard, P.Apply, OH.ProperEntry;
    var front, e := log[..|log| - 1], log[|log| - 1];
    LogSoundPrefix(pm, log, |front|);
    OH.ProperPrefix(om, log, |front|);
    if HasKey(front, EntryOf(pid)(f.id)) {
      EntryIsMapped(om, pm, front, fills, who, pid, f);
    } else {
      var g :| g in fills && EntersWith(front, e.payload.position, g);
      SameFill(fills, f, g);
    }
    MappingStays(log, |front|, f.cid);
    TookStays(om, log, |front|, f);
  }

  lemma RealizedAtOnce(front: Log, e: Entry, fills: seq<Fill>, who: set<string>, pid: string, f: Fill)
    requires Backed(front, e, fills, who) && Venue(fills) && pid in who && f in fills && e.key == Some(RealizedOf(pid)(f.id))
    ensures Lookup(MappedOn(front), f.cid) == Some(pid) && ReduceOnly(front, f.cid) == Some(true)
  {
    var g :| g in fills && RealizedKey(pid, f.id) == RealizedKey(pid, g.id) && RealizedBy(front, pid, e.payload.portfolio.amount, g);
    SameFill(fills, f, g);
  }

  /** A profit on record belongs to the position the exit's order is mapped to. */
  lemma {:induction false} RealizedIsMapped(om: string, pm: string, log: Log, fills: seq<Fill>, who: set<string>, pid: string, f: Fill)
    requires LogSound(pm, log) && OH.Proper(om, log) && Trail(log, fills, who) && Venue(fills) && pid in who && f in fills
    requires HasKey(log, RealizedOf(pid)(f.id))
    ensures Lookup(MappedOn(log), f.cid) == Some(pid) && ReduceOnly(log, f.cid) == Some(true)
  {
    hide Venue, MappedOn, Lookup, ReduceOnly, Backed, PH.Guard, P.Apply, OH.ProperEntry;
    var front, e := log[..|log| - 1], log[|log| - 1];
    LogSoundPrefix(pm, log, |front|);
    OH.ProperPrefix(om, log, |front|);
    if HasKey(front, RealizedOf(pid)(f.id)) {
      RealizedIsMapped(om, pm, front, fills, who, pid, f);
    } else {
      RealizedAtOnce(front, e, fills, who, pid, f);
    }
    MappingStays(log, |front|, f.cid);
    KindStays(om, log, |front|, f.cid);
  }

  // ---- release comes last ----

  /** A watched position that is not dead has never been released. */
  lemma {:induction false} UnreleasedUntilDead(pm: string, log: Log, fills: seq<Fill>, who: set<string>, pid: string)
    requires PH.Proper(pm, log) && Trail(log, fills, who) && pid in who && !DeadOn(log, pid)
    ensures pid !in L.Replay(log).released && forall x :: !HasKey(log, ForPortfolio(ReleaseKey(pid, x)))
  {
    if log != [] {
      var front, e := log[..|log| - 1], log[|log| - 1];
      assert front + [e] == log;
      if DeadOn(front, pid) {
        DeadStays(pm, front, e, pid);
      }
      UnreleasedUntilDead(pm, front, fills, who, pid);
    }
  }

  predicate IsClose(e: Entry, pid: string) {
    e.payload.Position? && e.payload.position.Exit? && e.payload.position.pid == pid
  }

  /** The position's close is the last thing on the log: its margin is still to be released. */
  predicate EndsInClose(log: Log, pid: string) {
    log != [] && IsClose(log[|log| - 1], pid)
  }

  /** The close of the position is followed at once by its release. */
  predicate ReleasedAtOnce(log: Log, pid: string) {
    forall i :: 0 <= i < |log| - 1 && IsClose(log[i], pid) ==> log[i + 1].payload == Portfolio(Released(pid))
  }

  lemma HeldStep(m: L.Memory, r: PortfolioRecord, pid: string)
    requires Whose(r) == Some(pid) ==> !r.Reserved? && !r.Allocated?
    requires L.HoldsNothing(m, pid)
    ensures L.HoldsNothing(L.Apply(m, r), pid)
  {
  }

  /** A dead position holds no margin, unless its close is the last thing on the log. */
  lemma {:induction false} DeadHoldsNothing(pm: string, log: Log, fills: seq<Fill>, who: set<string>, pid: string)
    requires PH.Proper(pm, log) && Trail(log, fills, who) && pid in who && ReleasedAtOnce(log, pid)
    requires DeadOn(log, pid) && !EndsInClose(log, pid)
    ensures L.HoldsNothing(L.Replay(log), pid)
  {
    var front, e := log[..|log| - 1], log[|log| - 1];
    assert front + [e] == log;
    assert forall i :: 0 <= i < |front| - 1 && IsClose(front[i], pid) ==> front[i + 1] == log[i + 1];
    if EndsInClose(front, pid) {
      assert log[|front| - 1] == front[|front| - 1];
    } else {
      if !DeadOn(front, pid) {
        DiesByClose(pm, front, e, fills, who, pid);
      }
      DeadHoldsNothing(pm, front, fills, who, pid);
      if e.payload.Portfolio? {
        HeldStep(L.Replay(front), e.payload.portfolio, pid);
      }
    }
  }

  lemma DiesByClose(pm: string, front: Log, e: Entry, fills: seq<Fill>, who: set<string>, pid: string)
    requires PH.Proper(pm, front + [e]) && PH.Proper(pm, front) && Backed(front, e, fills, who)
    requires !DeadOn(front, pid) && DeadOn(front + [e], pid)
    ensures IsClose(e, pid)
  {
    assert (front + [e])[..|front|] == front;
    hide PH.Guard, P.Apply, FeesUp, InTurn;
    KilledByExit(pm, Books(front), e.payload.position, pid);
  }

  lemma KilledByExit(pm: string, m: P.Memory, r: PositionRecord, pid: string)
    requires PH.Guard(pm, m, r) && P.Apply(m, r).Some? && !r.Moved?
    requires !(pid in m.snapshots && Dead(m.snapshots[pid].state))
    requires pid in P.Apply(m, r).value.snapshots && Dead(P.Apply(m, r).value.snapshots[pid].state)
    ensures r.Exit? && r.pid == pid
  {
    if P.PidOf(r) != pid {
      PH.ApplyElsewhere(m, r, pid);
    } else if !r.Created? {
      PH.ApplyHere(m, r);
    }
  }
}
