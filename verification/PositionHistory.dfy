/** Histories the position manager can write, and the books they add up to. */
module PositionHistory {
  import opened Wrappers
  import opened EventLog
  import opened PositionStates
  import opened Records
  import opened Pnl
  import opened Positions

  predicate ExitFits(s: Snapshot, fillPrice: real, leg: Leg) {
    && s.avg.Some? && s.avg.value > 0.0 && s.terms.stopD > 0.0 && s.terms.intended > 0.0
    && leg.entryPrice == s.avg.value && leg.exitPrice == fillPrice
    && leg.pnl == LegPnl(leg.entryPrice, leg.exitPrice, leg.quantity, leg.fee)
  }

  /** What the manager checks before it persists a record. */
  predicate Guard(pm: string, m: Memory, r: PositionRecord) {
    match r
    case Created(n, pid, terms) =>
      n == m.nextSeq && pid == MakeId(pm, n) && pid !in m.snapshots && terms.intended > 0.0 && terms.stopD > 0.0
    case FirstTouch(pid, fillId, _) => Legal(m, pid, FirstFill, New, Open) && fillId !in ProcessedOf(m, pid)
    case EntryFill(pid, t, source, target, fillId, _, quantity, _) =>
      && Legal(m, pid, t, source, target) && fillId !in ProcessedOf(m, pid)
      && t == (if m.snapshots[pid].filled + quantity >= m.snapshots[pid].terms.intended then EntryComplete else EntryPartial)
    case Exit(pid, t, source, target, fillId, leg) =>
      && Legal(m, pid, t, source, target) && ExitTrigger(t) && fillId !in ProcessedOf(m, pid)
      && ExitFits(m.snapshots[pid], leg.exitPrice, leg)
    case Moved(pid, t, source, target) =>
      Legal(m, pid, t, source, target) && t in {Breakeven, CompleteClose, Archive}
    case FundingPaid(pid, _, _) => pid in m.snapshots
  }

  ghost predicate ProperEntry(pm: string, before: Memory, e: Entry) {
    if e.payload.Position? then
      && e.key == Some(ForPosition(KeyOf(e.payload.position)))
      && Guard(pm, before, e.payload.position)
      && Apply(before, e.payload.position).Some?
    else e.key.Some? ==> !e.key.value.ForPosition?
  }

  ghost predicate Proper(pm: string, log: Log)
    ensures Proper(pm, log) ==> Replay(log).Some?
  {
    log == [] ||
    var front, e := log[..|log| - 1], log[|log| - 1];
    Proper(pm, front) && ProperEntry(pm, Replay(front).value, e)
  }

  lemma {:induction false} ProperPrefix(pm: string, log: Log, n: nat)
    requires Proper(pm, log) && n <= |log|
    ensures Proper(pm, log[..n])
    decreases |log|
  {
    if n == |log| {
      assert log[..n] == log;
    } else {
      assert log[..|log| - 1][..n] == log[..n];
      ProperPrefix(pm, log[..|log| - 1], n);
    }
  }

  lemma ProperSnoc(pm: string, log: Log, e: Entry)
    requires Proper(pm, log) && ProperEntry(pm, Replay(log).value, e)
    ensures Proper(pm, log + [e])
    ensures Replay(log + [e]) == if e.payload.Position? then Apply(Replay(log).value, e.payload.position) else Replay(log)
  {
  }

  // ---- the books of one position ----

  /** An entry fill as the log keeps it. */
  datatype Part = Part(price: real, quantity: real, fee: real)

  function PartsIn(p: Payload, pid: string): seq<Part> {
    if p.Position? && p.position.EntryFill? && p.position.pid == pid
    then [Part(p.position.price, p.position.quantity, p.position.fee)] else []
  }

  function LegsIn(p: Payload, pid: string): seq<Leg> {
    if p.Position? && p.position.Exit? && p.position.pid == pid then [p.position.leg] else []
  }

  function FundingIn(p: Payload, pid: string): real {
    if p.Position? && p.position.FundingPaid? && p.position.pid == pid then p.position.amount else 0.0
  }

  function EntryParts(log: Log, pid: string): seq<Part> {
    if log == [] then [] else EntryParts(log[..|log| - 1], pid) + PartsIn(log[|log| - 1].payload, pid)
  }

  function ExitLegs(log: Log, pid: string): seq<Leg> {
    if log == [] then [] else ExitLegs(log[..|log| - 1], pid) + LegsIn(log[|log| - 1].payload, pid)
  }

  function FundingTotal(log: Log, pid: string): real {
    if log == [] then 0.0 else FundingTotal(log[..|log| - 1], pid) + FundingIn(log[|log| - 1].payload, pid)
  }

  function Quantity(parts: seq<Part>): real {
    if parts == [] then 0.0 else Quantity(parts[..|parts| - 1]) + parts[|parts| - 1].quantity
  }

  function Notional(parts: seq<Part>): real {
    if parts == [] then 0.0
    else Notional(parts[..|parts| - 1]) + parts[|parts| - 1].price * parts[|parts| - 1].quantity
  }

  function EntryFees(parts: seq<Part>): real {
    if parts == [] then 0.0 else EntryFees(parts[..|parts| - 1]) + parts[|parts| - 1].fee
  }

  function LegTotal(legs: seq<Leg>, of: Leg -> real): real {
    if legs == [] then 0.0 else LegTotal(legs[..|legs| - 1], of) + of(legs[|legs| - 1])
  }

  const OfQuantity: Leg -> real := (l: Leg) => l.quantity
  const OfPnl: Leg -> real := (l: Leg) => l.pnl
  const OfR: Leg -> real := (l: Leg) => l.r
  const OfFee: Leg -> real := (l: Leg) => l.fee
  const OfNotional: Leg -> real := (l: Leg) => l.exitPrice * l.quantity

  ghost predicate Within(parts: seq<Part>, low: real, high: real) {
    forall i :: 0 <= i < |parts| ==> low <= parts[i].price <= high
  }

  /** A snapshot adds up to its entry fills, its closed legs and its funding payments. */
  ghost predicate Balanced(s: Snapshot, parts: seq<Part>, legs: seq<Leg>, funding: real) {
    && s.filled == Quantity(parts)
    && (parts != [] <==> s.filled > 0.0)
    && (parts != [] ==> s.avg.Some? && Averages(s.avg.value, parts))
    && s.remaining == s.filled - LegTotal(legs, OfQuantity)
    && s.realizedPnl == LegTotal(legs, OfPnl)
    && s.realizedR == LegTotal(legs, OfR)
    && s.fees == EntryFees(parts) + LegTotal(legs, OfFee)
    && s.funding == funding
    && (Entering(s.state) ==> legs == [])
    && (s.state == New || s.state == Open <==> parts == [])
    && (forall i :: 0 <= i < |legs| ==> s.avg == Some(legs[i].entryPrice))
    && s.terms.intended > 0.0 && s.terms.stopD > 0.0
  }

  /** An average that carries the notional of the parts and respects every bound on their prices. */
  ghost predicate Averages(avg: real, parts: seq<Part>) {
    && avg * Quantity(parts) == Notional(parts)
    && forall low, high :: Within(parts, low, high) ==> low <= avg <= high
  }

  lemma WithinMore(parts: seq<Part>, p: Part, low: real, high: real)
    requires Within(parts + [p], low, high)
    ensures Within(parts, low, high) && low <= p.price <= high
  {
    var all := parts + [p];
    assert low <= all[|parts|].price <= high;
    assert forall i :: 0 <= i < |parts| ==> all[i] == parts[i];
  }

  /** The new average respects every bound the old one and the new price respect. */
  lemma AverageWithin(avg: Option<real>, quantity: real, p: Part, low: real, high: real)
    requires p.quantity > 0.0 && quantity >= 0.0 && low <= p.price <= high
    requires quantity > 0.0 ==> avg.Some? && low <= avg.value <= high
    ensures AverageDefined(avg, quantity, p.quantity)
    ensures low <= WeightedAverage(avg, quantity, p.price, p.quantity) <= high
  {
    if quantity > 0.0 {
      AverageStaysBetween(avg.value, quantity, p.price, p.quantity, low, high);
    }
  }

  lemma SumsOfMore(parts: seq<Part>, p: Part)
    ensures Quantity(parts + [p]) == Quantity(parts) + p.quantity
    ensures Notional(parts + [p]) == Notional(parts) + p.price * p.quantity
  {
  }

  lemma AverageOfMore(avg: Option<real>, parts: seq<Part>, p: Part)
    requires p.quantity > 0.0 && Quantity(parts) >= 0.0 && (parts != [] <==> Quantity(parts) > 0.0)
    requires parts != [] ==> avg.Some? && Averages(avg.value, parts)
    ensures AverageDefined(avg, Quantity(parts), p.quantity)
    ensures Averages(WeightedAverage(avg, Quantity(parts), p.price, p.quantity), parts + [p])
    ensures Quantity(parts + [p]) == Quantity(parts) + p.quantity > 0.0
  {
    hide WeightedAverage, AverageDefined, Within;
    AverageCarriesNotional(avg, Quantity(parts), p.price, p.quantity);
    SumsOfMore(parts, p);
    assert parts == [] ==> Notional(parts) == 0.0;
    var next := WeightedAverage(avg, Quantity(parts), p.price, p.quantity);
    forall low, high | Within(parts + [p], low, high)
      ensures low <= next <= high
    {
      WithinMore(parts, p, low, high);
      AverageWithin(avg, Quantity(parts), p, low, high);
    }
  }

  lemma BalancedAfterEntry(s: Snapshot, parts: seq<Part>, legs: seq<Leg>, funding: real,
                           target: State, price: real, quantity: Records.Quantity, fee: real)
    requires Balanced(s, parts, legs, funding) && Entering(s.state)
    requires target == PartiallyFilled || target == FullyFilled
    ensures AverageDefined(s.avg, s.filled, quantity)
    ensures Balanced(Entered(s, target, price, quantity, fee), parts + [Part(price, quantity, fee)], legs, funding)
  {
    var p := Part(price, quantity, fee);
    AverageOfMore(s.avg, parts, p);
    assert (parts + [p])[..|parts|] == parts;
  }

  lemma BalancedAfterExit(s: Snapshot, parts: seq<Part>, legs: seq<Leg>, funding: real, target: State, leg: Leg)
    requires Balanced(s, parts, legs, funding) && ExitFits(s, leg.exitPrice, leg)
    requires !Entering(target) && parts != []
    ensures Balanced(Exited(s, target, leg), parts, legs + [leg], funding)
  {
  }

  ghost predicate InBooks(m: Memory, parts: seq<Part>, legs: seq<Leg>, funding: real, pid: string) {
    if pid in m.snapshots then LegsOf(m, pid) == legs && Balanced(m.snapshots[pid], parts, legs, funding)
    else parts == [] && legs == [] && funding == 0.0 && LegsOf(m, pid) == []
  }

  /** A record of another position leaves this one's snapshot and legs alone. */
  lemma ApplyElsewhere(m: Memory, r: PositionRecord, pid: string)
    requires PidOf(r) != pid && Apply(m, r).Some?
    ensures var m' := Apply(m, r).value;
      && (pid in m'.snapshots <==> pid in m.snapshots)
      && (pid in m.snapshots ==> m'.snapshots[pid] == m.snapshots[pid])
      && LegsOf(m', pid) == LegsOf(m, pid)
      && ProcessedOf(m', pid) == ProcessedOf(m, pid)
  {
  }

  /** What a record does to the snapshot of its own position. */
  lemma ApplyHere(m: Memory, r: PositionRecord)
    requires Apply(m, r).Some? && !r.Created?
    ensures PidOf(r) in m.snapshots && PidOf(r) in Apply(m, r).value.snapshots
    ensures var s, s' := m.snapshots[PidOf(r)], Apply(m, r).value.snapshots[PidOf(r)];
      && (r.FirstTouch? ==> s.state == New && s' == Touched(s, r.price))
      && (r.EntryFill? ==> AverageDefined(s.avg, s.filled, r.quantity) && s' == Entered(s, r.target, r.price, r.quantity, r.fee))
      && (r.Exit? ==> s' == Exited(s, r.target, r.leg))
      && (r.Moved? ==> s' == s.(state := r.target))
      && (r.FundingPaid? ==> s' == s.(funding := s.funding + r.amount))
    ensures LegsOf(Apply(m, r).value, PidOf(r)) == LegsOf(m, PidOf(r)) + (if r.Exit? then [r.leg] else [])
    ensures ProcessedOf(m, PidOf(r)) <= ProcessedOf(Apply(m, r).value, PidOf(r))
  {
  }

  lemma BalancedAfterRest(s: Snapshot, parts: seq<Part>, legs: seq<Leg>, funding: real, price: real, target: State, amount: real)
    requires Balanced(s, parts, legs, funding)
    ensures s.state == New ==> Balanced(Touched(s, price), parts, legs, funding)
    ensures !Entering(s.state) && !Entering(target) ==> Balanced(s.(state := target), parts, legs, funding)
    ensures Balanced(s.(funding := s.funding + amount), parts, legs, funding + amount)
  {
  }

  lemma BooksKept(pm: string, m: Memory, r: PositionRecord, parts: seq<Part>, legs: seq<Leg>, funding: real)
    requires Guard(pm, m, r) && Apply(m, r).Some? && !r.Created?
    requires InBooks(m, parts, legs, funding, PidOf(r))
    ensures var p := Position(r);
            InBooks(Apply(m, r).value, parts + PartsIn(p, PidOf(r)), legs + LegsIn(p, PidOf(r)),
                    funding + FundingIn(p, PidOf(r)), PidOf(r))
  {
    hide Entered, Exited, Touched, Averages, Quantity, EntryFees, LegTotal;
    ApplyHere(m, r);
    var s := m.snapshots[PidOf(r)];
    assert parts + [] == parts && legs + [] == legs;
    match r
    case EntryFill(_, _, _, target, _, price, quantity, fee) =>
      BalancedAfterEntry(s, parts, legs, funding, target, price, quantity, fee);
    case Exit(_, _, _, target, _, leg) =>
      BalancedAfterExit(s, parts, legs, funding, target, leg);
    case FirstTouch(_, _, price) => BalancedAfterRest(s, parts, legs, funding, price, s.state, 0.0);
    case Moved(_, _, _, target) => BalancedAfterRest(s, parts, legs, funding, 0.0, target, 0.0);
    case FundingPaid(_, _, amount) => BalancedAfterRest(s, parts, legs, funding, 0.0, s.state, amount);
  }

  lemma BooksOpened(pm: string, m: Memory, r: PositionRecord)
    requires r.Created? && Guard(pm, m, r) && InBooks(m, [], [], 0.0, r.pid)
    ensures InBooks(Apply(m, r).value, [], [], 0.0, r.pid)
  {
  }

  lemma BooksStep(pm: string, m: Memory, r: PositionRecord, parts: seq<Part>, legs: seq<Leg>, funding: real, pid: string)
    requires Guard(pm, m, r) && Apply(m, r).Some? && InBooks(m, parts, legs, funding, pid)
    ensures var p := Position(r);
            InBooks(Apply(m, r).value, parts + PartsIn(p, pid), legs + LegsIn(p, pid), funding + FundingIn(p, pid), pid)
  {
    assert parts + [] == parts && legs + [] == legs;
    if PidOf(r) != pid {
      ApplyElsewhere(m, r, pid);
    } else if r.Created? {
      BooksOpened(pm, m, r);
    } else {
      BooksKept(pm, m, r, parts, legs, funding);
    }
  }

  lemma PayloadStep(pm: string, m: Memory, m': Memory, p: Payload,
                    parts: seq<Part>, legs: seq<Leg>, funding: real, pid: string)
    requires InBooks(m, parts, legs, funding, pid)
    requires if p.Position? then Guard(pm, m, p.position) && Apply(m, p.position) == Some(m') else m' == m
    ensures InBooks(m', parts + PartsIn(p, pid), legs + LegsIn(p, pid), funding + FundingIn(p, pid), pid)
  {
    if p.Position? {
      BooksStep(pm, m, p.position, parts, legs, funding, pid);
    } else {
      assert parts + [] == parts && legs + [] == legs;
    }
  }

  /**
   Position conservation, on every history: average entry price times filled quantity is the
   sum over the distinct entry fills, the average lies between any bounds on their prices,
   what remains is what was filled less what the legs closed, and profit, R, fees and
   funding are the sums over fills, legs and payments.
   */
  lemma {:induction false} BooksBalance(pm: string, log: Log, pid: string)
    requires Proper(pm, log)
    ensures InBooks(Replay(log).value, EntryParts(log, pid), ExitLegs(log, pid), FundingTotal(log, pid), pid)
  {
    if log != [] {
      var front, p := log[..|log| - 1], log[|log| - 1].payload;
      var parts, legs, funding := EntryParts(front, pid), ExitLegs(front, pid), FundingTotal(front, pid);
      BooksBalance(pm, front, pid);
      PayloadStep(pm, Replay(front).value, Replay(log).value, p, parts, legs, funding, pid);
      assert EntryParts(log, pid) == parts + PartsIn(p, pid);
      assert ExitLegs(log, pid) == legs + LegsIn(p, pid);
      assert FundingTotal(log, pid) == funding + FundingIn(p, pid);
    }
  }

  // ---- consequences ----

  /** Realised profit in closed form: exit notional less average entry cost less leg fees. */
  lemma {:induction false} PnlTelescopes(legs: seq<Leg>, avg: real)
    requires forall i :: 0 <= i < |legs| ==>
               legs[i].entryPrice == avg && legs[i].pnl == LegPnl(avg, legs[i].exitPrice, legs[i].quantity, legs[i].fee)
    ensures LegTotal(legs, OfPnl)
         == LegTotal(legs, OfNotional) - avg * LegTotal(legs, OfQuantity) - LegTotal(legs, OfFee)
  {
    if legs != [] {
      PnlTelescopes(legs[..|legs| - 1], avg);
    }
  }

  // ---- what never goes back ----

  ghost predicate LaterAt(m: Memory, m': Memory, pid: string) {
    && (pid in m.snapshots ==> pid in m'.snapshots && Rank(m.snapshots[pid].state) <= Rank(m'.snapshots[pid].state))
    && ProcessedOf(m, pid) <= ProcessedOf(m', pid)
  }

  lemma ApplyIsLater(pm: string, m: Memory, r: PositionRecord, pid: string)
    requires Guard(pm, m, r) && Apply(m, r).Some?
    ensures LaterAt(m, Apply(m, r).value, pid)
  {
    if PidOf(r) != pid {
      ApplyElsewhere(m, r, pid);
    } else if !r.Created? {
      ApplyHere(m, r);
      if r.EntryFill? || r.Exit? || r.Moved? {
        RankNeverFalls(r.source, r.trigger);
      }
    }
  }

  /** Every fill recorded for a position is remembered as processed. */
  lemma {:induction false} RecordedIsProcessed(pm: string, log: Log, key: PositionKey)
    requires Proper(pm, log) && HasKey(log, ForPosition(key))
    ensures key.EntryKey? || key.ExitKey? ==> key.fillId in ProcessedOf(Replay(log).value, key.pid)
    ensures key.OpenKey? ==> OpenMark(key.fillId) in ProcessedOf(Replay(log).value, key.pid)
    ensures key.pid in Replay(log).value.snapshots
    ensures key.OpenKey? ==> Replay(log).value.snapshots[key.pid].state != New
  {
    var front, e := log[..|log| - 1], log[|log| - 1];
    if e.key != Some(ForPosition(key)) {
      RecordedIsProcessed(pm, front, key);
    }
    if e.payload.Position? {
      ApplyIsLater(pm, Replay(front).value, e.payload.position, key.pid);
    }
  }

  /** The fills on record for a position: its entries and its exits. */
  function IdsIn(p: Payload, pid: string): set<string> {
    if !p.Position? || PidOf(p.position) != pid then {}
    else if p.position.EntryFill? || p.position.Exit? then {p.position.fillId} else {}
  }

  function RecordedIds(log: Log, pid: string): set<string> {
    if log == [] then {} else RecordedIds(log[..|log| - 1], pid) + IdsIn(log[|log| - 1].payload, pid)
  }

  /** The fill that opened a position. */
  function Opener(log: Log, pid: string): Option<string> {
    if log == [] then None
    else
      var p := log[|log| - 1].payload;
      if p.Position? && p.position.FirstTouch? && p.position.pid == pid then Some(p.position.fillId)
      else Opener(log[..|log| - 1], pid)
  }

  function MarkOf(opener: Option<string>): set<string> {
    if opener.Some? then {OpenMark(opener.value)} else {}
  }

  lemma ProcessedStep(pm: string, m: Memory, r: PositionRecord, ids: set<string>, opener: Option<string>, pid: string)
    requires Guard(pm, m, r) && Apply(m, r).Some? && ProcessedOf(m, pid) == ids + MarkOf(opener)
    requires pid !in m.snapshots || m.snapshots[pid].state == New ==> opener.None?
    ensures var m' := Apply(m, r).value;
            var opener' := if r.FirstTouch? && r.pid == pid then Some(r.fillId) else opener;
      && ProcessedOf(m', pid) == ids + IdsIn(Position(r), pid) + MarkOf(opener')
      && (pid !in m'.snapshots || m'.snapshots[pid].state == New ==> opener'.None?)
  {
  }

  /** What a position remembers is exactly its recorded fills and the marker of the one that opened it. */
  lemma {:induction false} ProcessedExactly(pm: string, log: Log, pid: string)
    requires Proper(pm, log)
    ensures ProcessedOf(Replay(log).value, pid) == RecordedIds(log, pid) + MarkOf(Opener(log, pid))
    ensures var m := Replay(log).value; pid !in m.snapshots || m.snapshots[pid].state == New ==> Opener(log, pid).None?
  {
    if log != [] {
      var front, p := log[..|log| - 1], log[|log| - 1].payload;
      ProcessedExactly(pm, front, pid);
      if p.Position? {
        ProcessedStep(pm, Replay(front).value, p.position, RecordedIds(front, pid), Opener(front, pid), pid);
      }
    }
  }

  /** The state, the filled quantity and the average of a position only move forward. */
  ghost predicate Onward(m: Memory, m': Memory, pid: string) {
    && LaterAt(m, m', pid)
    && (pid in m.snapshots ==>
         && m.snapshots[pid].filled <= m'.snapshots[pid].filled
         && (m.snapshots[pid].avg.Some? ==> m'.snapshots[pid].avg.Some?))
  }

  lemma ApplyIsOnward(pm: string, m: Memory, r: PositionRecord, pid: string)
    requires Guard(pm, m, r) && Apply(m, r).Some?
    ensures Onward(m, Apply(m, r).value, pid)
  {
    ApplyIsLater(pm, m, r, pid);
    if PidOf(r) != pid {
      ApplyElsewhere(m, r, pid);
    } else if !r.Created? {
      ApplyHere(m, r);
    }
  }

  lemma {:induction false} HistoryIsOnward(pm: string, log: Log, n: nat, pid: string)
    requires Proper(pm, log) && n <= |log|
    ensures Proper(pm, log[..n]) && Onward(Replay(log[..n]).value, Replay(log).value, pid)
    decreases |log|
  {
    ProperPrefix(pm, log, n);
    if n == |log| {
      assert log[..n] == log;
    } else {
      var front, p := log[..|log| - 1], log[|log| - 1].payload;
      assert front[..n] == log[..n];
      HistoryIsOnward(pm, front, n, pid);
      if p.Position? {
        ApplyIsOnward(pm, Replay(front).value, p.position, pid);
      }
    }
  }

  /** Until the first fill a position has nothing; from then on it has an average price. */
  ghost predicate Started(m: Memory, pid: string) {
    if pid in m.snapshots && m.snapshots[pid].state != New then m.snapshots[pid].avg.Some?
    else ProcessedOf(m, pid) == {} && (pid in m.snapshots ==> m.snapshots[pid].filled == 0.0)
  }

  lemma StartedByOne(pm: string, m: Memory, r: PositionRecord, pid: string)
    requires Guard(pm, m, r) && Apply(m, r).Some? && Started(m, pid)
    ensures Started(Apply(m, r).value, pid)
  {
    if PidOf(r) != pid {
      ApplyElsewhere(m, r, pid);
    } else if !r.Created? {
      ApplyHere(m, r);
    }
  }

  lemma {:induction false} HistoryIsStarted(pm: string, log: Log, pid: string)
    requires Proper(pm, log)
    ensures Started(Replay(log).value, pid)
  {
    if log != [] {
      var front, p := log[..|log| - 1], log[|log| - 1].payload;
      HistoryIsStarted(pm, front, pid);
      if p.Position? {
        StartedByOne(pm, Replay(front).value, p.position, pid);
      }
    }
  }
}
