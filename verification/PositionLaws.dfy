/**
 What each call of the position manager comes to, in terms of the position before it: which
 state, which quantities, which money, and which single records reach the log.
 */
module PositionLaws {
  import opened Wrappers
  import opened Text
  import opened EventLog
  import opened PositionStates
  import opened Records
  import Pnl
  import opened Positions
  import opened PositionHistory
  import opened PositionRuns

  // ---- the figures of one closing leg ----

  lemma PerUnit(x: real, entry: real, k: real)
    requires entry > 0.0 && k > 0.0
    ensures (x / entry - 1.0) / k * k * entry == x - entry
    ensures (x / entry - 1.0) * entry == x - entry
  {
    var ratio := x / entry;
    assert ratio * entry == x;
    assert (ratio - 1.0) / k * k == ratio - 1.0;
  }

  lemma PartOf(part: real, whole: real)
    requires whole > 0.0
    ensures part / whole * whole == part
    ensures part > 0.0 ==> part / whole > 0.0
  {
  }

  lemma Regroup(a: real, b: real, c: real, d: real, e: real)
    ensures a * b * c * d * e == (a * c * d) * (b * e)
  {
    assert a * b * c * d * e == a * b * (c * d) * e;
    assert a * b * (c * d) * e == a * (c * d) * b * e;
  }

  lemma PercentOf(a: real, b: real, c: real, d: real)
    ensures a * 100.0 * b * c * d == 100.0 * (a * c) * (b * d)
  {
    assert a * b * c * d == (a * c) * (b * d);
  }

  /** R before fees is the price move times the quantity, measured in stop distances of the intended notional. */
  lemma MoveInR(entry: real, exit: real, stopD: real, intended: real, quantity: real)
    requires entry > 0.0 && stopD > 0.0 && intended > 0.0
    ensures var r := (exit / entry - 1.0) / stopD * (quantity / intended); r * stopD * entry * intended == (exit - entry) * quantity
    ensures var pct := (exit / entry - 1.0) * 100.0 * (quantity / intended); pct * entry * intended == 100.0 * (exit - entry) * quantity
  {
    var perStop, move, part := (exit / entry - 1.0) / stopD, exit / entry - 1.0, quantity / intended;
    PerUnit(exit, entry, stopD);
    PartOf(quantity, intended);
    hide *;
    Regroup(perStop, part, stopD, entry, intended);
    PercentOf(move, part, entry, intended);
    Associate(exit - entry, quantity);
  }

  lemma Associate(a: real, b: real)
    ensures 100.0 * a * b == 100.0 * (a * b)
  {
  }

  lemma FeeInStops(fee: real, entry: real, quantity: real, stopD: real)
    requires entry > 0.0 && quantity > 0.0 && stopD > 0.0
    ensures entry * quantity > 0.0
    ensures fee / (entry * quantity) / stopD * stopD * (entry * quantity) == fee
  {
    var notional := entry * quantity;
    assert fee / notional * notional == fee;
    assert fee / notional / stopD * stopD == fee / notional;
  }

  /**
   A leg as it should be.  Before fees its R is the price move times the quantity, in stop
   distances of the intended notional, and so positive exactly above the average price; a
   fee costs as many stop distances of the closed notional.  The percentage is that of the
   intended notional, and the profit is the price move times the quantity less the fee.
   */
  predicate Fair(s: Snapshot, fill: Fill, leg: Leg, gross: real)
    requires s.avg.Some?
  {
    var entry := s.avg.value;
    && leg.entryPrice == entry && leg.exitPrice == fill.price && leg.quantity == fill.quantity && leg.fee == fill.fee
    && gross * s.terms.stopD * entry * s.terms.intended == (fill.price - entry) * fill.quantity
    && (gross > 0.0 <==> fill.price > entry)
    && (gross - leg.r) * s.terms.stopD * (entry * fill.quantity) == fill.fee
    && (fill.fee == 0.0 ==> leg.r == gross)
    && leg.pct * entry * s.terms.intended == 100.0 * (fill.price - entry) * fill.quantity
    && leg.pnl == (fill.price - entry) * fill.quantity - fill.fee
  }

  lemma LegIsFair(s: Snapshot, fill: Fill, reason: string) returns (gross: real)
    requires s.avg.Some? && s.avg.value > 0.0 && s.terms.stopD > 0.0 && s.terms.intended > 0.0
    ensures Fair(s, fill, NewLeg(s, fill, reason), gross) && NewLeg(s, fill, reason).reason == reason
  {
    var entry, part := s.avg.value, fill.quantity / s.terms.intended;
    gross := (fill.price / entry - 1.0) / s.terms.stopD * part;
    MoveInR(entry, fill.price, s.terms.stopD, s.terms.intended, fill.quantity);
    FeeInStops(fill.fee, entry, fill.quantity, s.terms.stopD);
    RisesAbove(entry, fill.price, s.terms.stopD, part);
    PartOf(fill.quantity, s.terms.intended);
    LegParts(s, fill, reason);
    RParts(entry, fill.price, s.terms.stopD, part, fill.fee, fill.quantity);
    hide Pnl.LegR, NewLeg;
  }

  lemma RisesAbove(entry: real, exit: real, stopD: real, part: real)
    requires entry > 0.0 && stopD > 0.0 && part > 0.0
    ensures (exit / entry - 1.0) / stopD * part > 0.0 <==> exit > entry
  {
    var ratio := exit / entry;
    assert ratio * entry == exit;
    var perStop := (ratio - 1.0) / stopD;
    assert perStop * stopD == ratio - 1.0;
    if exit > entry {
      assert ratio > 1.0;
      assert perStop > 0.0;
    } else {
      assert ratio <= 1.0;
      assert perStop <= 0.0;
    }
  }

  lemma LegParts(s: Snapshot, fill: Fill, reason: string)
    requires s.avg.Some? && s.avg.value > 0.0 && s.terms.stopD > 0.0 && s.terms.intended > 0.0
    requires s.avg.value * fill.quantity > 0.0
    ensures var leg, entry, part := NewLeg(s, fill, reason), s.avg.value, fill.quantity / s.terms.intended;
      && leg.entryPrice == entry && leg.exitPrice == fill.price && leg.quantity == fill.quantity && leg.fee == fill.fee
      && leg.reason == reason
      && leg.r == Pnl.LegR(entry, fill.price, s.terms.stopD, part, fill.fee, fill.quantity)
      && leg.pct == (fill.price / entry - 1.0) * 100.0 * part
      && leg.pnl == (fill.price - entry) * fill.quantity - fill.fee
  {
  }

  lemma RParts(entry: real, exit: real, stopD: real, part: real, fee: real, quantity: real)
    requires entry > 0.0 && stopD > 0.0 && quantity > 0.0 && entry * quantity > 0.0
    ensures Pnl.LegR(entry, exit, stopD, part, fee, quantity)
         == (exit / entry - 1.0) / stopD * part - fee / (entry * quantity) / stopD
  {
  }

  // ---- the calls ----

  /** A position is created for a positive quantity and stop distance, under the next id, with nothing filled yet. */
  lemma CreateBooks(w: World, terms: PositionTerms)
    requires Good(w)
    ensures var (w', out) := CreatePosition(w, terms);
            var pid := "pm:" + w.pm + ":" + (Decimal(w.mem.nextSeq) + ":" + "position");
            var s := Snapshot(New, terms, 0.0, 0.0, None, 0.0, 0.0, 0.0, 0.0);
      if terms.intended <= 0.0 || terms.stopD <= 0.0 then (w', out) == (w, Raised(BadValue))
      else
        && out == Snap(s) && w'.mem.snapshots == w.mem.snapshots[pid := s] && pid !in w.mem.snapshots
        && w'.mem.nextSeq == w.mem.nextSeq + 1
        && w'.log == w.log + [Event(NextId(w.log), Some(ForPosition(CreateKey(pid))), Position(Created(w.mem.nextSeq, pid, terms)))]
  {
    NextPidIsNew(w);
  }

  /** The entry fill as a part of the books: quantities and fees add up, and the average carries the notional. */
  predicate EntersWith(s: Snapshot, s': Snapshot, fill: Fill) {
    && s'.state == (if s.filled + fill.quantity >= s.terms.intended then FullyFilled else PartiallyFilled)
    && s'.filled == s.filled + fill.quantity && s'.remaining == s'.filled
    && s'.fees == s.fees + fill.fee
    && s'.avg.Some? && (s.filled == 0.0 ==> s'.avg.value == fill.price)
    && (s.filled > 0.0 && s.avg.Some? ==> s'.avg.value * s'.filled == s.avg.value * s.filled + fill.price * fill.quantity)
    && s'.terms == s.terms && s'.realizedPnl == s.realizedPnl && s'.realizedR == s.realizedR && s'.funding == s.funding
  }

  lemma ClassifyBooks(w: World, pid: string, fill: Fill)
    requires Good(w) && pid in w.mem.snapshots && w.mem.snapshots[pid].state in {Open, PartiallyFilled}
    requires fill.id !in ProcessedOf(w.mem, pid)
    ensures var s := w.mem.snapshots[pid];
            var (w', out) := ClassifyFill(w, pid, s.filled, fill);
            var t := if s.filled + fill.quantity >= s.terms.intended then EntryComplete else EntryPartial;
      && pid in w'.mem.snapshots && out == Snap(w'.mem.snapshots[pid]) && EntersWith(s, w'.mem.snapshots[pid], fill)
      && w'.mem.snapshots == w.mem.snapshots[pid := w'.mem.snapshots[pid]]
      && w'.log == w.log + [Event(NextId(w.log), Some(ForPosition(EntryKey(pid, fill.id))),
           Position(EntryFill(pid, t, s.state, w'.mem.snapshots[pid].state, fill.id, fill.price, fill.quantity, fill.fee)))]
  {
    var s := w.mem.snapshots[pid];
    var t := if s.filled + fill.quantity >= s.terms.intended then EntryComplete else EntryPartial;
    var to := Next(s.state, t).value;
    PersistIsFresh(w, EntryFill(pid, t, s.state, to, fill.id, fill.price, fill.quantity, fill.fee));
    FilledSoFar(w, pid);
    hide Pnl.WeightedAverage, InBooks, Balanced, Good, EntersWith;
    EntersBy(s, to, fill);
  }

  lemma FilledSoFar(w: World, pid: string)
    requires Good(w) && pid in w.mem.snapshots
    ensures var s := w.mem.snapshots[pid]; s.filled >= 0.0 && (s.filled > 0.0 ==> s.avg.Some?)
  {
    BooksBalance(w.pm, w.log, pid);
    QuantityIsNotNegative(w.mem.snapshots[pid], EntryParts(w.log, pid), ExitLegs(w.log, pid), FundingTotal(w.log, pid));
  }

  lemma EntersBy(s: Snapshot, to: State, fill: Fill)
    requires s.filled >= 0.0 && (s.filled > 0.0 ==> s.avg.Some?)
    requires to == (if s.filled + fill.quantity >= s.terms.intended then FullyFilled else PartiallyFilled)
    ensures Pnl.AverageDefined(s.avg, s.filled, fill.quantity)
    ensures EntersWith(s, Entered(s, to, fill.price, fill.quantity, fill.fee), fill)
  {
    Pnl.AverageCarriesNotional(s.avg, s.filled, fill.price, fill.quantity);
    FirstAverage(s.avg, s.filled, fill.price, fill.quantity);
    hide Pnl.WeightedAverage;
  }

  lemma FirstAverage(avg: Option<real>, filled: real, price: real, quantity: real)
    requires filled >= 0.0 && quantity > 0.0
    ensures filled == 0.0 ==> Pnl.WeightedAverage(avg, filled, price, quantity) == price
  {
  }

  lemma QuantityIsNotNegative(s: Snapshot, parts: seq<Part>, legs: seq<Leg>, funding: real)
    requires Balanced(s, parts, legs, funding)
    ensures s.filled >= 0.0 && (s.filled > 0.0 ==> s.avg.Some?)
  {
  }

  /**
   An entry fill.  Taken while the position is being entered and its id is new: the state
   says whether the intended quantity is reached, and the books take in quantity, price and
   fee, with an opening record in front when it is the first.  A known id changes nothing,
   and a position past its entry refuses.
   */
  lemma EntryBooks(w: World, pid: string, fill: Fill)
    requires Good(w)
    ensures var (w', out) := RecordEntryFill(w, pid, fill);
      if pid !in w.mem.snapshots then (w', out) == (w, Raised(NotFound))
      else
        var s := w.mem.snapshots[pid];
        if fill.id in ProcessedOf(w.mem, pid) then (w', out) == (w, Snap(s))
        else if s.state !in {New, Open, PartiallyFilled} then (w', out) == (w, Raised(IllegalTransition))
        else
          && pid in w'.mem.snapshots && out == Snap(w'.mem.snapshots[pid]) && EntersWith(s, w'.mem.snapshots[pid], fill)
          && w'.mem.snapshots == w.mem.snapshots[pid := w'.mem.snapshots[pid]]
          && |w'.log| == |w.log| + (if s.state == New then 2 else 1) && w.log <= w'.log
          && (s.state == New ==> w'.log[|w.log|].payload == Position(FirstTouch(pid, fill.id, fill.price)))
          && WritesFill(w, w', pid, fill)
  {
    if pid in w.mem.snapshots && fill.id !in ProcessedOf(w.mem, pid) && Entering(w.mem.snapshots[pid].state) {
      var s := w.mem.snapshots[pid];
      if s.state == New {
        FirstTouches(w, pid, fill);
        ClassifyBooks(Persist(w, FirstTouch(pid, fill.id, fill.price)), pid, fill);
        hide Persist;
      } else {
        ClassifyBooks(w, pid, fill);
      }
      hide ClassifyFill, Good, ProcessedOf;
    }
  }

  /** The first fill opens the position, and leaves it as empty as it was. */
  lemma FirstTouches(w: World, pid: string, fill: Fill)
    requires Good(w) && pid in w.mem.snapshots && w.mem.snapshots[pid].state == New && fill.id !in ProcessedOf(w.mem, pid)
    ensures var w1 := Persist(w, FirstTouch(pid, fill.id, fill.price));
            var s := w.mem.snapshots[pid];
      && Good(w1) && s.filled == 0.0
      && w1.mem.snapshots == w.mem.snapshots[pid := Touched(s, fill.price)] && fill.id !in ProcessedOf(w1.mem, pid)
      && w1.log == w.log + [Event(NextId(w.log), Some(ForPosition(OpenKey(pid, fill.id))), Position(FirstTouch(pid, fill.id, fill.price)))]
  {
    TouchKeeps(w, pid, fill);
    PersistIsFresh(w, FirstTouch(pid, fill.id, fill.price));
    HistoryIsStarted(w.pm, w.log, pid);
    hide Good;
  }

  function ReasonOf(trigger: Trigger, current: State, given: Option<string>): string {
    if trigger == T1 then "t1_half"
    else if trigger == T2 then "t2"
    else if trigger == Stop && current == BreakevenActive then "stop_after_t1"
    else if trigger == Stop then "stop_before_t1"
    else match given
      case Some(text) => if text == "" then "signal_loss" else text
      case None => "signal_loss"
  }

  /** The position once a leg is closed. */
  function LessBy(s: Snapshot, to: State, leg: Leg): Snapshot {
    Snapshot(to, s.terms, s.filled, s.remaining - leg.quantity, s.avg,
             s.realizedPnl + leg.pnl, s.realizedR + leg.r, s.fees + leg.fee, s.funding)
  }

  /** An exit along an edge: one record, with a fair leg, and the position less by it. */
  lemma ExitBooks(w: World, pid: string, fill: Fill, trigger: Trigger, reason: Option<string>, to: State)
    returns (leg: Leg, gross: real)
    requires Good(w) && trigger in {T1, T2, Stop, Close} && pid in w.mem.snapshots && fill.id !in ProcessedOf(w.mem, pid)
    requires var s := w.mem.snapshots[pid]; (s.state, trigger, to) in EDGES && s.avg.Some? && s.avg.value > 0.0
    ensures var (w', out) := RecordExit(w, pid, fill, trigger, reason);
            var s := w.mem.snapshots[pid];
      && Fair(s, fill, leg, gross) && leg.reason == ReasonOf(trigger, s.state, reason)
      && out == Snap(LessBy(s, to, leg)) && w'.mem.snapshots == w.mem.snapshots[pid := LessBy(s, to, leg)]
      && LegsOf(w'.mem, pid) == LegsOf(w.mem, pid) + [leg]
      && w'.log == w.log + [Event(NextId(w.log), Some(ForPosition(ExitKey(pid, fill.id))),
           Position(Exit(pid, trigger, s.state, to, fill.id, leg)))]
  {
    var s := w.mem.snapshots[pid];
    hide *;
    SoundTerms(w, pid);
    leg := NewLeg(s, fill, LegReason(trigger, s.state, reason));
    gross := LegIsFair(s, fill, LegReason(trigger, s.state, reason));
    LegFits(s, fill, leg, gross);
    ExitWrites(w, pid, fill, trigger, reason, to);
    ReasonIs(trigger, s.state, reason);
    ExitedIs(s, to, leg);
  }

  lemma ReasonIs(trigger: Trigger, current: State, given: Option<string>)
    requires trigger in {T1, T2, Stop, Close}
    ensures LegReason(trigger, current, given) == ReasonOf(trigger, current, given)
  {
  }

  lemma ExitedIs(s: Snapshot, to: State, leg: Leg)
    ensures Exited(s, to, leg) == LessBy(s, to, leg)
  {
  }

  lemma SoundTerms(w: World, pid: string)
    requires Good(w) && pid in w.mem.snapshots
    ensures w.mem.snapshots[pid].terms.intended > 0.0 && w.mem.snapshots[pid].terms.stopD > 0.0
  {
    BooksBalance(w.pm, w.log, pid);
    TermsOfBooks(w.mem.snapshots[pid], EntryParts(w.log, pid), ExitLegs(w.log, pid), FundingTotal(w.log, pid));
  }

  lemma ExitWrites(w: World, pid: string, fill: Fill, trigger: Trigger, reason: Option<string>, to: State)
    requires Good(w) && trigger in {T1, T2, Stop, Close} && pid in w.mem.snapshots && fill.id !in ProcessedOf(w.mem, pid)
    requires var s := w.mem.snapshots[pid]; (s.state, trigger, to) in EDGES && s.avg.Some? && s.avg.value > 0.0
    requires w.mem.snapshots[pid].terms.intended > 0.0 && w.mem.snapshots[pid].terms.stopD > 0.0
    requires var leg := NewLeg(w.mem.snapshots[pid], fill, LegReason(trigger, w.mem.snapshots[pid].state, reason));
      ExitFits(w.mem.snapshots[pid], leg.exitPrice, leg)
    ensures var (w', out) := RecordExit(w, pid, fill, trigger, reason);
            var s := w.mem.snapshots[pid];
            var leg := NewLeg(s, fill, LegReason(trigger, s.state, reason));
      && out == Snap(Exited(s, to, leg)) && w'.mem.snapshots == w.mem.snapshots[pid := Exited(s, to, leg)]
      && LegsOf(w'.mem, pid) == LegsOf(w.mem, pid) + [leg]
      && w'.log == w.log + [Event(NextId(w.log), Some(ForPosition(ExitKey(pid, fill.id))),
           Position(Exit(pid, trigger, s.state, to, fill.id, leg)))]
  {
    var s := w.mem.snapshots[pid];
    VerdictsAre(s.state, trigger);
    var leg := NewLeg(s, fill, LegReason(trigger, s.state, reason));
    hide NewLeg, EDGES, LegReason;
    PersistIsFresh(w, Exit(pid, trigger, s.state, to, fill.id, leg));
    hide Good, Exited;
  }

  lemma TermsOfBooks(s: Snapshot, parts: seq<Part>, legs: seq<Leg>, funding: real)
    requires Balanced(s, parts, legs, funding)
    ensures s.terms.intended > 0.0 && s.terms.stopD > 0.0
  {
  }

  lemma LegFits(s: Snapshot, fill: Fill, leg: Leg, gross: real)
    requires s.avg.Some? && s.avg.value > 0.0 && s.terms.stopD > 0.0 && s.terms.intended > 0.0 && Fair(s, fill, leg, gross)
    ensures ExitFits(s, leg.exitPrice, leg) && leg.quantity == fill.quantity && leg.fee == fill.fee
  {
  }

  /** Every other exit leaves log and books alone; one that comes too late is remembered, one that comes too early is an error. */
  lemma ExitRefused(w: World, pid: string, fill: Fill, trigger: Trigger, reason: Option<string>)
    requires Good(w)
    ensures var (w', out) := RecordExit(w, pid, fill, trigger, reason);
      if trigger !in {T1, T2, Stop, Close} then (w', out) == (w, Raised(BadValue))
      else if pid !in w.mem.snapshots then (w', out) == (w, Raised(NotFound))
      else
        var s := w.mem.snapshots[pid];
        if fill.id in ProcessedOf(w.mem, pid) then (w', out) == (w, Snap(s))
        else if forall to :: (s.state, trigger, to) !in EDGES then
          if TooEarly(s.state, trigger) then (w', out) == (w, Raised(Inconsistent))
          else
            && out == Snap(s) && w'.log == w.log && w'.mem.snapshots == w.mem.snapshots && w'.mem.legs == w.mem.legs
            && ProcessedOf(w'.mem, pid) == ProcessedOf(w.mem, pid) + {fill.id}
        else s.avg.Some? && (s.avg.value <= 0.0 ==> (w', out) == (w, Raised(BadValue)))
  {
    if pid in w.mem.snapshots {
      var s := w.mem.snapshots[pid];
      VerdictsAre(s.state, trigger);
      HistoryIsStarted(w.pm, w.log, pid);
      if Next(s.state, trigger).Some? {
        assert (s.state, trigger, Next(s.state, trigger).value) in EDGES;
      }
      hide EDGES;
    }
  }

  /** The exit comes before the states it belongs to. */
  predicate TooEarly(s: State, t: Trigger) {
    match t
    case T1 => s in {New, Open, PartiallyFilled}
    case T2 => s in {New, Open, PartiallyFilled, FullyFilled, T1Reached}
    case Stop => s in {New, Open, T1Reached}
    case Close => s in {New, Open, T1Reached, T2Reached, StopTriggered}
    case _ => false
  }

  // ---- moves and funding ----

  lemma {:induction false} MovedIsBehind(pm: string, log: Log, pid: string, t: Trigger)
    requires Proper(pm, log) && HasKey(log, ForPosition(MoveKey(pid, t)))
    ensures pid in Replay(log).value.snapshots && t in {Breakeven, CompleteClose, Archive}
    ensures Rank(Replay(log).value.snapshots[pid].state) >= MinTargetRank(t)
  {
    var front, e := log[..|log| - 1], log[|log| - 1];
    if e.key != Some(ForPosition(MoveKey(pid, t))) {
      MovedIsBehind(pm, front, pid, t);
    }
    if e.payload.Position? {
      ApplyIsLater(pm, Replay(front).value, e.payload.position, pid);
      if e.key == Some(ForPosition(MoveKey(pid, t))) {
        MinTargetRankIsMinimum(t);
      }
    }
  }

  /** A move along an edge changes the state and nothing else, by one record; any other is old news or an error. */
  lemma MoveBooks(w: World, pid: string, trigger: Trigger)
    requires Good(w) && pid in w.mem.snapshots && trigger in {Breakeven, CompleteClose, Archive}
    ensures var (w', out) := MovePosition(w, pid, trigger);
            var s := w.mem.snapshots[pid];
      && (forall to :: (s.state, trigger, to) in EDGES ==>
           && out == Snap(s.(state := to)) && w'.mem == w.mem.(snapshots := w.mem.snapshots[pid := s.(state := to)])
           && w'.log == w.log + [Event(NextId(w.log), Some(ForPosition(MoveKey(pid, trigger))),
                Position(Moved(pid, trigger, s.state, to)))])
      && ((forall to :: (s.state, trigger, to) !in EDGES) ==>
           w' == w && out == (if MovesTooEarly(s.state, trigger) then Raised(Inconsistent) else Snap(s)))
  {
    var s := w.mem.snapshots[pid];
    VerdictsAre(s.state, trigger);
    if Next(s.state, trigger).Some? {
      var to := Next(s.state, trigger).value;
      assert (s.state, trigger, to) in EDGES;
      if HasKey(w.log, ForPosition(MoveKey(pid, trigger))) {
        MovedIsBehind(w.pm, w.log, pid, trigger);
        assert false;
      }
      GuardedRecordsApply(w, Moved(pid, trigger, s.state, to));
    }
    hide EDGES, Good;
  }

  predicate MovesTooEarly(s: State, t: Trigger) {
    match t
    case Breakeven => s in {New, Open, PartiallyFilled, FullyFilled}
    case CompleteClose => s in {New, Open, PartiallyFilled, FullyFilled, T1Reached, BreakevenActive}
    case _ => s !in {Closed, Archived}
  }

  /** A funding payment is added once per id, whatever the state. */
  lemma FundingBooks(w: World, pid: string, amount: real, fundingId: string)
    requires Good(w)
    ensures var (w', out) := RecordFunding(w, pid, amount, fundingId);
      if pid !in w.mem.snapshots then (w', out) == (w, Raised(NotFound))
      else
        var s := w.mem.snapshots[pid];
        if HasKey(w.log, ForPosition(PositionFundingKey(pid, fundingId))) then (w', out) == (w, Snap(s))
        else
          && out == Snap(s.(funding := s.funding + amount))
          && w'.mem == w.mem.(snapshots := w.mem.snapshots[pid := s.(funding := s.funding + amount)])
          && w'.log == w.log + [Event(NextId(w.log), Some(ForPosition(PositionFundingKey(pid, fundingId))),
               Position(FundingPaid(pid, fundingId, amount)))]
  {
  }
}
