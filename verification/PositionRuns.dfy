/** Whole runs of the position manager, with crashes after any persisted record. */
module PositionRuns {
  import opened Wrappers
  import opened EventLog
  import opened PositionStates
  import opened Records
  import opened Positions
  import opened PositionHistory

  /** The entry is over: the position takes no more entry fills. */
  predicate EntryOver(m: Memory, pid: string) {
    pid in m.snapshots && !Entering(m.snapshots[pid].state)
  }

  /** The live books and the replayed ones; of entered positions live memory may remember late fills, too. */
  ghost predicate SameBooks(live: Memory, replayed: Memory) {
    && live.snapshots == replayed.snapshots && live.legs == replayed.legs && live.nextSeq == replayed.nextSeq
    && (forall pid :: ProcessedOf(replayed, pid) <= ProcessedOf(live, pid))
    && (forall pid :: !EntryOver(live, pid) ==> ProcessedOf(replayed, pid) == ProcessedOf(live, pid))
  }

  ghost predicate Good(w: World) {
    Ordered(w.log) && Proper(w.pm, w.log) && SameBooks(w.mem, Replay(w.log).value)
  }

  ghost predicate GoodFrom(w0: World, w: World) {
    Good(w) && w.pm == w0.pm && w0.log <= w.log
  }

  lemma ApplySame(pm: string, m: Memory, m': Memory, r: PositionRecord)
    requires SameBooks(m, m') && Guard(pm, m, r) && Apply(m, r).Some?
    ensures Guard(pm, m', r) && Apply(m', r).Some? && SameBooks(Apply(m, r).value, Apply(m', r).value)
  {
    forall pid
      ensures ProcessedOf(Apply(m', r).value, pid) <= ProcessedOf(Apply(m, r).value, pid)
      ensures !EntryOver(Apply(m, r).value, pid) ==> ProcessedOf(Apply(m', r).value, pid) == ProcessedOf(Apply(m, r).value, pid)
    {
      assert ProcessedOf(m', pid) <= ProcessedOf(m, pid);
      if EntryOver(m, pid) {
        EntryEndsOnce(pm, m, r, pid);
      }
    }
  }

  lemma EntryEndsOnce(pm: string, m: Memory, r: PositionRecord, pid: string)
    requires Guard(pm, m, r) && Apply(m, r).Some? && EntryOver(m, pid)
    ensures EntryOver(Apply(m, r).value, pid)
  {
    if PidOf(r) != pid {
      ApplyElsewhere(m, r, pid);
    } else if !r.Created? {
      ApplyHere(m, r);
    }
  }

  /** The one error replay could meet beyond the table, a zero divisor, cannot occur. */
  lemma GuardedRecordsApply(w: World, r: PositionRecord)
    requires Good(w) && Guard(w.pm, w.mem, r)
    ensures Apply(w.mem, r).Some?
  {
    if r.EntryFill? {
      BooksBalance(w.pm, w.log, r.pid);
    }
  }

  lemma {:induction false} PidsMinted(pm: string, log: Log, pid: string)
    requires Proper(pm, log) && pid in Replay(log).value.snapshots
    ensures exists n: nat :: n < Replay(log).value.nextSeq && pid == MakeId(pm, n)
  {
    var front, e := log[..|log| - 1], log[|log| - 1];
    if pid in Replay(front).value.snapshots {
      PidsMinted(pm, front, pid);
      var n: nat :| n < Replay(front).value.nextSeq && pid == MakeId(pm, n);
      assert n < Replay(log).value.nextSeq;
    } else {
      ApplyElsewhereOrNew(Replay(front).value, e.payload.position, pid);
    }
  }

  lemma ApplyElsewhereOrNew(m: Memory, r: PositionRecord, pid: string)
    requires Apply(m, r).Some? && pid !in m.snapshots && pid in Apply(m, r).value.snapshots
    ensures r.Created? && r.pid == pid
  {
  }

  lemma NextPidIsNew(w: World)
    requires Good(w)
    ensures MakeId(w.pm, w.mem.nextSeq) !in w.mem.snapshots
    ensures !HasKey(w.log, ForPosition(CreateKey(MakeId(w.pm, w.mem.nextSeq))))
  {
    var pid := MakeId(w.pm, w.mem.nextSeq);
    if HasKey(w.log, ForPosition(CreateKey(pid))) {
      RecordedIsProcessed(w.pm, w.log, CreateKey(pid));
    }
    if pid in w.mem.snapshots {
      PidsMinted(w.pm, w.log, pid);
      var n: nat :| n < w.mem.nextSeq && pid == MakeId(w.pm, n);
      MakeIdInjective(w.pm, n, w.mem.nextSeq);
      assert false;
    }
  }

  lemma EntryKeeps(w: World, r: PositionRecord, m: Memory)
    requires Good(w) && !HasKey(w.log, ForPosition(KeyOf(r)))
    requires Guard(w.pm, Replay(w.log).value, r) && Apply(Replay(w.log).value, r).Some?
    requires SameBooks(m, Apply(Replay(w.log).value, r).value)
    ensures GoodFrom(w, World(w.pm, m, Appended(w.log, Some(ForPosition(KeyOf(r))), Position(r))))
  {
  }

  lemma PersistKeeps(w: World, r: PositionRecord)
    requires Good(w) && Guard(w.pm, w.mem, r)
    ensures GoodFrom(w, Persist(w, r))
    ensures Persist(w, r).mem == w.mem || (Apply(w.mem, r).Some? && Persist(w, r).mem == Apply(w.mem, r).value)
  {
    if !HasKey(w.log, ForPosition(KeyOf(r))) {
      GuardedRecordsApply(w, r);
      ApplySame(w.pm, w.mem, Replay(w.log).value, r);
      EntryKeeps(w, r, Apply(w.mem, r).value);
    }
  }

  /** A guarded entry or exit is never already on the log, so it is always appended and applied. */
  lemma PersistIsFresh(w: World, r: PositionRecord)
    requires Good(w) && Guard(w.pm, w.mem, r) && (r.FirstTouch? || r.EntryFill? || r.Exit?)
    ensures !HasKey(w.log, ForPosition(KeyOf(r)))
    ensures Apply(w.mem, r).Some? && Persist(w, r).mem == Apply(w.mem, r).value
  {
    GuardedRecordsApply(w, r);
    if HasKey(w.log, ForPosition(KeyOf(r))) {
      RecordedIsProcessed(w.pm, w.log, KeyOf(r));
      assert false;
    }
  }

  lemma CreateKeeps(w: World, pid: string, terms: PositionTerms)
    requires Good(w) && pid == MakeId(w.pm, w.mem.nextSeq) && terms.intended > 0.0 && terms.stopD > 0.0
    ensures GoodFrom(w, CreateAs(w, pid, terms).0)
  {
    NextPidIsNew(w);
    var r := Created(w.mem.nextSeq, pid, terms);
    ApplySame(w.pm, w.mem, Replay(w.log).value, r);
    EntryKeeps(w, r, Apply(w.mem, r).value);
  }

  lemma ClassifyKeeps(w: World, pid: string, fill: Fill)
    requires Good(w) && pid in w.mem.snapshots && fill.id !in ProcessedOf(w.mem, pid)
    requires w.mem.snapshots[pid].state in {Open, PartiallyFilled}
    ensures GoodFrom(w, ClassifyFill(w, pid, w.mem.snapshots[pid].filled, fill).0)
  {
    var s := w.mem.snapshots[pid];
    var t := if s.filled + fill.quantity >= s.terms.intended then EntryComplete else EntryPartial;
    PersistKeeps(w, EntryFill(pid, t, s.state, Next(s.state, t).value, fill.id, fill.price, fill.quantity, fill.fee));
  }

  lemma MarkIsAnotherId(fillId: string)
    ensures OpenMark(fillId) != fillId
  {
  }

  lemma TouchKeeps(w: World, pid: string, fill: Fill)
    requires Good(w) && pid in w.mem.snapshots && w.mem.snapshots[pid].state == New
    requires fill.id !in ProcessedOf(w.mem, pid)
    ensures var w1 := Persist(w, FirstTouch(pid, fill.id, fill.price));
      && GoodFrom(w, w1) && pid in w1.mem.snapshots && w1.mem.snapshots[pid].state == Open
      && w1.mem.snapshots[pid].filled == w.mem.snapshots[pid].filled
      && fill.id !in ProcessedOf(w1.mem, pid)
  {
    var r := FirstTouch(pid, fill.id, fill.price);
    PersistKeeps(w, r);
    PersistIsFresh(w, r);
    MarkIsAnotherId(fill.id);
  }

  lemma EntryFillKeeps(w: World, pid: string, fill: Fill)
    requires Good(w)
    ensures GoodFrom(w, RecordEntryFill(w, pid, fill).0)
  {
    if pid in w.mem.snapshots && fill.id !in ProcessedOf(w.mem, pid) && Entering(w.mem.snapshots[pid].state) {
      if w.mem.snapshots[pid].state == New {
        TouchKeeps(w, pid, fill);
        ClassifyKeeps(Persist(w, FirstTouch(pid, fill.id, fill.price)), pid, fill);
      } else {
        ClassifyKeeps(w, pid, fill);
      }
    }
  }

  lemma NoteLateKeeps(w: World, pid: string, fillId: string)
    requires Good(w) && EntryOver(w.mem, pid)
    ensures GoodFrom(w, NoteLate(w, pid, fillId))
  {
    var m := NoteLate(w, pid, fillId).mem;
    forall p
      ensures ProcessedOf(Replay(w.log).value, p) <= ProcessedOf(m, p)
    {
      assert ProcessedOf(Replay(w.log).value, p) <= ProcessedOf(w.mem, p);
    }
  }

  lemma ExitKeeps(w: World, pid: string, fill: Fill, trigger: Trigger, reason: Option<string>)
    requires Good(w)
    ensures GoodFrom(w, RecordExit(w, pid, fill, trigger, reason).0)
  {
    if ExitTrigger(trigger) && pid in w.mem.snapshots && fill.id !in ProcessedOf(w.mem, pid) {
      var s := w.mem.snapshots[pid];
      match TryTransition(s.state, trigger)
      case StaleNoOp => NoteLateKeeps(w, pid, fill.id);
      case Contradiction =>
      case Moves(to) =>
        if s.avg.Some? && s.avg.value > 0.0 && s.terms.stopD > 0.0 && s.terms.intended > 0.0 {
          PersistKeeps(w, Exit(pid, trigger, s.state, to, fill.id, NewLeg(s, fill, LegReason(trigger, s.state, reason))));
        }
    }
  }

  // ---- calls and runs ----

  datatype Call =
    | Create(terms: PositionTerms)
    | EntryFilled(pid: string, fill: Fill)
    | ExitFilled(pid: string, fill: Fill, trigger: Trigger, reason: Option<string>)
    | Move(pid: string, trigger: Trigger)
    | Fund(pid: string, amount: real, fundingId: string)

  function Do(w: World, c: Call): (World, Outcome) {
    match c
    case Create(terms) => CreatePosition(w, terms)
    case EntryFilled(pid, fill) => RecordEntryFill(w, pid, fill)
    case ExitFilled(pid, fill, trigger, reason) => RecordExit(w, pid, fill, trigger, reason)
    case Move(pid, trigger) =>
      if trigger in {Breakeven, CompleteClose, Archive} then MovePosition(w, pid, trigger) else (w, Raised(BadValue))
    case Fund(pid, amount, fundingId) => RecordFunding(w, pid, amount, fundingId)
  }

  lemma DoKeeps(w: World, c: Call)
    requires Good(w)
    ensures GoodFrom(w, Do(w, c).0)
  {
    match c
    case Create(terms) =>
      if terms.intended > 0.0 && terms.stopD > 0.0 {
        CreateKeeps(w, MakeId(w.pm, w.mem.nextSeq), terms);
      }
    case EntryFilled(pid, fill) => EntryFillKeeps(w, pid, fill);
    case ExitFilled(pid, fill, trigger, reason) => ExitKeeps(w, pid, fill, trigger, reason);
    case Move(pid, trigger) =>
      if pid in w.mem.snapshots && trigger in {Breakeven, CompleteClose, Archive} {
        var s := w.mem.snapshots[pid];
        if Next(s.state, trigger).Some? {
          PersistKeeps(w, Moved(pid, trigger, s.state, Next(s.state, trigger).value));
        }
      }
    case Fund(pid, amount, fundingId) =>
      if pid in w.mem.snapshots {
        PersistKeeps(w, FundingPaid(pid, fundingId, amount));
      }
  }

  datatype Action =
    | Complete(call: Call)
    | CrashDuring(call: Call, persisted: nat)
    | OtherWriter(key: Option<Key>, payload: Payload)

  ghost predicate Allowed(a: Action) {
    a.OtherWriter? ==> !a.payload.Position? && SameSource(a.key, a.payload)
  }

  function Crashed(w: World, after: World, k: nat): World {
    var n := if |w.log| + k <= |after.log| then |w.log| + k else |after.log|;
    World(after.pm, Replay(after.log[..n]).GetOr(Initial), after.log[..n])
  }

  /** A crash keeps the first `persisted` of the events the call appends, and loses the memory. */
  function Act(w: World, a: Action): World {
    match a
    case Complete(c) => Do(w, c).0
    case CrashDuring(c, k) => Crashed(w, Do(w, c).0, k)
    case OtherWriter(key, payload) => w.(log := Appended(w.log, key, payload))
  }

  function Run(w: World, actions: seq<Action>): World {
    if actions == [] then w
    else Act(Run(w, actions[..|actions| - 1]), actions[|actions| - 1])
  }

  lemma CrashedIsGood(w: World, after: World, k: nat)
    requires Good(after)
    ensures Good(Crashed(w, after, k))
  {
    var n := if |w.log| + k <= |after.log| then |w.log| + k else |after.log|;
    PrefixKeepsOrder(after.log, n);
    ProperPrefix(after.pm, after.log, n);
  }

  lemma ActKeeps(w: World, a: Action)
    requires Good(w) && Allowed(a)
    ensures Good(Act(w, a)) && Act(w, a).pm == w.pm
  {
    match a
    case Complete(c) => DoKeeps(w, c);
    case CrashDuring(c, k) =>
      DoKeeps(w, c);
      CrashedIsGood(w, Do(w, c).0, k);
    case OtherWriter(key, payload) =>
      AppendedKeepsOrder(w.log, key, payload);
      if Appended(w.log, key, payload) != w.log {
        ProperSnoc(w.pm, w.log, Event(NextId(w.log), key, payload));
      }
  }

  /**
   Over any run of calls with positive fill quantities, other writers and crashes after any
   persisted record: the log replays to the live books, and every position's books balance.
   */
  lemma {:induction false} RunBalances(pm: string, actions: seq<Action>, pid: string)
    requires forall i :: 0 <= i < |actions| ==> Allowed(actions[i])
    ensures var w := Run(World(pm, Initial, []), actions);
      && Good(w) && w.pm == pm && Replay(w.log).Some? && SameBooks(w.mem, Replay(w.log).value)
      && InBooks(w.mem, EntryParts(w.log, pid), ExitLegs(w.log, pid), FundingTotal(w.log, pid), pid)
  {
    if actions != [] {
      RunBalances(pm, actions[..|actions| - 1], pid);
      ActKeeps(Run(World(pm, Initial, []), actions[..|actions| - 1]), actions[|actions| - 1]);
    }
    BooksBalance(pm, Run(World(pm, Initial, []), actions).log, pid);
  }

  // ---- which entry fills are taken ----

  /** The call recorded this fill, as the last thing it wrote. */
  predicate WritesFill(w: World, w': World, pid: string, fill: Fill) {
    && |w.log| < |w'.log| && w'.log[|w'.log| - 1].payload.Position? &&
    var r := w'.log[|w'.log| - 1].payload.position;
    r.EntryFill? && r.pid == pid && r.fillId == fill.id && r.price == fill.price && r.quantity == fill.quantity && r.fee == fill.fee
  }

  /** The position has recorded a fill of this id, or the id is the marker of the fill that opened it. */
  predicate KnownFill(log: Log, pid: string, fillId: string) {
    fillId in RecordedIds(log, pid) || (Opener(log, pid).Some? && fillId == OpenMark(Opener(log, pid).value))
  }

  lemma UnknownIsUnprocessed(w: World, pid: string, fillId: string)
    requires Good(w) && !EntryOver(w.mem, pid)
    ensures fillId in ProcessedOf(w.mem, pid) <==> KnownFill(w.log, pid, fillId)
  {
    ProcessedExactly(w.pm, w.log, pid);
  }

  lemma OpenTakes(w: World, pid: string, fill: Fill)
    requires Good(w) && pid in w.mem.snapshots && w.mem.snapshots[pid].state in {Open, PartiallyFilled}
    requires fill.id !in ProcessedOf(w.mem, pid)
    ensures WritesFill(w, ClassifyFill(w, pid, w.mem.snapshots[pid].filled, fill).0, pid, fill)
  {
    var s := w.mem.snapshots[pid];
    var t := if s.filled + fill.quantity >= s.terms.intended then EntryComplete else EntryPartial;
    PersistIsFresh(w, EntryFill(pid, t, s.state, Next(s.state, t).value, fill.id, fill.price, fill.quantity, fill.fee));
  }

  /**
   While a position is being entered, a fill is recorded exactly when its id is neither that
   of a fill on record for the position nor the marker of the one that opened it; any
   other fill changes nothing.
   */
  lemma EntryIsTaken(w: World, pid: string, fill: Fill)
    requires Good(w) && pid in w.mem.snapshots && Entering(w.mem.snapshots[pid].state)
    ensures WritesFill(w, RecordEntryFill(w, pid, fill).0, pid, fill) <==> !KnownFill(w.log, pid, fill.id)
    ensures KnownFill(w.log, pid, fill.id) ==> RecordEntryFill(w, pid, fill).0 == w
  {
    UnknownIsUnprocessed(w, pid, fill.id);
    if fill.id !in ProcessedOf(w.mem, pid) {
      if w.mem.snapshots[pid].state == New {
        TouchKeeps(w, pid, fill);
        OpenTakes(Persist(w, FirstTouch(pid, fill.id, fill.price)), pid, fill);
      } else {
        OpenTakes(w, pid, fill);
      }
    }
  }

  /** The fill that gets lost: its id is the marker of the one that opens the position. */
  lemma MarkerHidesAFill(w: World, pid: string, first: Fill, second: Fill)
    requires Good(w) && pid in w.mem.snapshots && w.mem.snapshots[pid].state == New
    requires first.id !in ProcessedOf(w.mem, pid) && second.id == OpenMark(first.id)
    ensures !KnownFill(w.log, pid, second.id)
    ensures var w1 := RecordEntryFill(w, pid, first).0; RecordEntryFill(w1, pid, second).0 == w1
  {
    UnknownIsUnprocessed(w, pid, second.id);
    HistoryIsStarted(w.pm, w.log, pid);
    var r := FirstTouch(pid, first.id, first.price);
    TouchKeeps(w, pid, first);
    PersistIsFresh(w, r);
    var w1 := Persist(w, r);
    var s := w1.mem.snapshots[pid];
    var t := if s.filled + first.quantity >= s.terms.intended then EntryComplete else EntryPartial;
    PersistIsFresh(w1, EntryFill(pid, t, s.state, Next(s.state, t).value, first.id, first.price, first.quantity, first.fee));
  }
}
