/**
 The position manager as functions of its memory and the shared log: what each public call
 persists and answers.
 */
module Positions {
  import opened Wrappers
  import opened Text
  import opened EventLog
  import opened PositionStates
  import opened Records
  import opened Pnl

  datatype Snapshot = Snapshot(
    state: State, terms: PositionTerms, filled: real, remaining: real, avg: Option<real>,
    realizedPnl: real, realizedR: real, fees: real, funding: real)

  datatype Memory = Memory(
    snapshots: map<string, Snapshot>,
    legs: map<string, seq<Leg>>,
    processed: map<string, set<string>>,
    nextSeq: nat)

  const Initial: Memory := Memory(map[], map[], map[], 1)

  function ProcessedOf(m: Memory, pid: string): set<string> {
    if pid in m.processed then m.processed[pid] else {}
  }

  function LegsOf(m: Memory, pid: string): seq<Leg> {
    if pid in m.legs then m.legs[pid] else []
  }

  function MakeId(pm: string, number: nat): string {
    Minted("pm:" + pm + ":", number, "position")
  }

  lemma MakeIdInjective(pm: string, m: nat, n: nat)
    requires MakeId(pm, m) == MakeId(pm, n)
    ensures m == n
  {
    MintedInjective("pm:" + pm + ":", m, "position", n, "position");
  }

  // ---- applying one record ----

  function PidOf(r: PositionRecord): string {
    match r
    case Created(_, pid, _) => pid
    case FirstTouch(pid, _, _) => pid
    case EntryFill(pid, _, _, _, _, _, _, _) => pid
    case Exit(pid, _, _, _, _, _) => pid
    case Moved(pid, _, _, _) => pid
    case FundingPaid(pid, _, _) => pid
  }

  /** The first fill's marker goes into the processed set under a name of its own. */
  function OpenMark(fillId: string): string {
    fillId + ":open"
  }

  function Remember(m: Memory, pid: string, fillId: string): Memory {
    m.(processed := m.processed[pid := ProcessedOf(m, pid) + {fillId}])
  }

  function Touched(s: Snapshot, price: real): Snapshot {
    s.(state := Open, avg := Some(if s.avg.None? || s.filled == 0.0 then price else s.avg.value), remaining := s.filled)
  }

  function Entered(s: Snapshot, target: State, price: real, quantity: real, fee: real): Snapshot
    requires AverageDefined(s.avg, s.filled, quantity)
  {
    s.(state := target,
       avg := Some(WeightedAverage(s.avg, s.filled, price, quantity)),
       filled := s.filled + quantity,
       remaining := s.filled + quantity,
       fees := s.fees + fee)
  }

  function Exited(s: Snapshot, target: State, leg: Leg): Snapshot {
    s.(state := target,
       remaining := s.remaining - leg.quantity,
       realizedPnl := s.realizedPnl + leg.pnl,
       realizedR := s.realizedR + leg.r,
       fees := s.fees + leg.fee)
  }

  predicate Legal(m: Memory, pid: string, trigger: Trigger, source: State, target: State) {
    pid in m.snapshots && m.snapshots[pid].state == source && Next(source, trigger) == Some(target)
  }

  /** Applies one persisted record; None is the replay-integrity (or arithmetic) error. */
  function Apply(m: Memory, r: PositionRecord): Option<Memory> {
    match r
    case Created(n, pid, terms) =>
      Some(Memory(m.snapshots[pid := Snapshot(New, terms, 0.0, 0.0, None, 0.0, 0.0, 0.0, 0.0)],
                  if pid in m.legs then m.legs else m.legs[pid := []],
                  if pid in m.processed then m.processed else m.processed[pid := {}],
                  if n + 1 > m.nextSeq then n + 1 else m.nextSeq))
    case FirstTouch(pid, fillId, price) =>
      if !Legal(m, pid, FirstFill, New, Open) then None
      else Some(Remember(m, pid, OpenMark(fillId)).(snapshots := m.snapshots[pid := Touched(m.snapshots[pid], price)]))
    case EntryFill(pid, trigger, source, target, fillId, price, quantity, fee) =>
      if !Legal(m, pid, trigger, source, target) then None
      else if !AverageDefined(m.snapshots[pid].avg, m.snapshots[pid].filled, quantity) then None
      else Some(Remember(m, pid, fillId).(
        snapshots := m.snapshots[pid := Entered(m.snapshots[pid], target, price, quantity, fee)]))
    case Exit(pid, trigger, source, target, fillId, leg) =>
      if !Legal(m, pid, trigger, source, target) then None
      else Some(Remember(m, pid, fillId).(
        snapshots := m.snapshots[pid := Exited(m.snapshots[pid], target, leg)],
        legs := m.legs[pid := LegsOf(m, pid) + [leg]]))
    case Moved(pid, trigger, source, target) =>
      if !Legal(m, pid, trigger, source, target) then None
      else Some(m.(snapshots := m.snapshots[pid := m.snapshots[pid].(state := target)]))
    case FundingPaid(pid, _, amount) =>
      if pid !in m.snapshots then None
      else Some(m.(snapshots := m.snapshots[pid := m.snapshots[pid].(funding := m.snapshots[pid].funding + amount)]))
  }

  function Replay(log: Log): Option<Memory> {
    if log == [] then Some(Initial)
    else
      var before, e := Replay(log[..|log| - 1]), log[|log| - 1];
      if before.Some? && e.payload.Position? then Apply(before.value, e.payload.position) else before
  }

  /** The key a record is persisted under. */
  function KeyOf(r: PositionRecord): PositionKey {
    match r
    case Created(_, pid, _) => CreateKey(pid)
    case FirstTouch(pid, fillId, _) => OpenKey(pid, fillId)
    case EntryFill(pid, _, _, _, fillId, _, _, _) => EntryKey(pid, fillId)
    case Exit(pid, _, _, _, fillId, _) => ExitKey(pid, fillId)
    case Moved(pid, trigger, _, _) => MoveKey(pid, trigger)
    case FundingPaid(pid, fundingId, _) => PositionFundingKey(pid, fundingId)
  }

  // ---- calls ----

  datatype World = World(pm: string, mem: Memory, log: Log)

  datatype Error = NotFound | IllegalTransition | Inconsistent | BadValue
  datatype Outcome = Snap(snapshot: Snapshot) | Raised(error: Error)

  /** Persist, then apply; a key that is already in the log changes nothing. */
  function Persist(w: World, r: PositionRecord): World {
    if HasKey(w.log, ForPosition(KeyOf(r))) then w
    else w.(log := Appended(w.log, Some(ForPosition(KeyOf(r))), Position(r)), mem := Apply(w.mem, r).GetOr(w.mem))
  }

  function Answered(w: World, pid: string): Outcome {
    if pid in w.mem.snapshots then Snap(w.mem.snapshots[pid]) else Raised(NotFound)
  }

  function CreateAs(w: World, pid: string, terms: PositionTerms): (World, Outcome) {
    var w1 := Persist(w.(mem := w.mem.(nextSeq := w.mem.nextSeq + 1)), Created(w.mem.nextSeq, pid, terms));
    (w1, Answered(w1, pid))
  }

  function CreatePosition(w: World, terms: PositionTerms): (World, Outcome) {
    if terms.intended <= 0.0 || terms.stopD <= 0.0 then (w, Raised(BadValue))
    else CreateAs(w, MakeId(w.pm, w.mem.nextSeq), terms)
  }

  /** The classification of a fill once the position is open. */
  function ClassifyFill(w: World, pid: string, filledBefore: real, fill: Fill): (World, Outcome)
    requires pid in w.mem.snapshots
  {
    var s := w.mem.snapshots[pid];
    var t := if filledBefore + fill.quantity >= s.terms.intended then EntryComplete else EntryPartial;
    match TryTransition(s.state, t)
    case StaleNoOp => (w, Snap(s))
    case Contradiction => (w, Raised(Inconsistent))
    case Moves(to) =>
      var w1 := Persist(w, EntryFill(pid, t, s.state, to, fill.id, fill.price, fill.quantity, fill.fee));
      (w1, Answered(w1, pid))
  }

  /** Two durable steps for the first fill: NEW to OPEN, then the fill's own classification. */
  function RecordEntryFill(w: World, pid: string, fill: Fill): (World, Outcome) {
    if pid !in w.mem.snapshots then (w, Raised(NotFound))
    else if fill.id in ProcessedOf(w.mem, pid) then (w, Snap(w.mem.snapshots[pid]))
    else if !Entering(w.mem.snapshots[pid].state) then (w, Raised(IllegalTransition))
    else
      var w1 := if w.mem.snapshots[pid].state == New then Persist(w, FirstTouch(pid, fill.id, fill.price)) else w;
      if pid !in w1.mem.snapshots then (w1, Raised(NotFound))
      else ClassifyFill(w1, pid, w.mem.snapshots[pid].filled, fill)
  }

  function LegReason(trigger: Trigger, current: State, reason: Option<string>): string {
    match trigger
    case Stop => if current == BreakevenActive then "stop_after_t1" else "stop_before_t1"
    case T1 => "t1_half"
    case T2 => "t2"
    case _ => if reason.Some? && reason.value != "" then reason.value else "signal_loss"
  }

  function NewLeg(s: Snapshot, fill: Fill, reason: string): Leg
    requires s.avg.Some? && s.avg.value > 0.0 && s.terms.stopD > 0.0 && s.terms.intended > 0.0
  {
    var entry, fraction := s.avg.value, FractionOfOriginal(fill.quantity, s.terms.intended);
    Leg(entry, fill.price, fill.quantity, fill.fee,
        LegR(entry, fill.price, s.terms.stopD, fraction, fill.fee, fill.quantity),
        LegPct(entry, fill.price, fraction),
        LegPnl(entry, fill.price, fill.quantity, fill.fee),
        reason)
  }

  function NoteLate(w: World, pid: string, fillId: string): World {
    w.(mem := Remember(w.mem, pid, fillId))
  }

  function RecordExit(w: World, pid: string, fill: Fill, trigger: Trigger, reason: Option<string>): (World, Outcome) {
    if !ExitTrigger(trigger) then (w, Raised(BadValue))
    else if pid !in w.mem.snapshots then (w, Raised(NotFound))
    else
      var s := w.mem.snapshots[pid];
      if fill.id in ProcessedOf(w.mem, pid) then (w, Snap(s))
      else match TryTransition(s.state, trigger)
        case StaleNoOp => (NoteLate(w, pid, fill.id), Snap(s))
        case Contradiction => (w, Raised(Inconsistent))
        case Moves(to) =>
          if s.avg.None? then (w, Raised(Inconsistent))
          else if s.avg.value <= 0.0 || s.terms.stopD <= 0.0 || s.terms.intended <= 0.0 then (w, Raised(BadValue))
          else
            var leg := NewLeg(s, fill, LegReason(trigger, s.state, reason));
            var w1 := Persist(w, Exit(pid, trigger, s.state, to, fill.id, leg));
            (w1, Answered(w1, pid))
  }

  /** Breakeven, complete-close and archive: a state change and nothing else. */
  function MovePosition(w: World, pid: string, trigger: Trigger): (World, Outcome) {
    if pid !in w.mem.snapshots then (w, Raised(NotFound))
    else
      var s := w.mem.snapshots[pid];
      match TryTransition(s.state, trigger)
      case StaleNoOp => (w, Snap(s))
      case Contradiction => (w, Raised(Inconsistent))
      case Moves(to) =>
        var w1 := Persist(w, Moved(pid, trigger, s.state, to));
        (w1, Answered(w1, pid))
  }

  function RecordFunding(w: World, pid: string, amount: real, fundingId: string): (World, Outcome) {
    if pid !in w.mem.snapshots then (w, Raised(NotFound))
    else
      var w1 := Persist(w, FundingPaid(pid, fundingId, amount));
      (w1, Answered(w1, pid))
  }
}
