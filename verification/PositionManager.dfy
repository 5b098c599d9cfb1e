/** The position manager object. */
module PositionManager {
  import opened Wrappers
  import opened EventLog
  import opened PositionStates
  import opened Records
  import opened Pnl
  import opened Positions
  import PH = PositionHistory
  import PR = PositionRuns

  class PositionManager {
    const pm: string
    const store: SharedLog<Key, Payload>
    var snapshots: map<string, Snapshot>
    var closedLegs: map<string, seq<Leg>>
    var processed: map<string, set<string>>
    var applied: set<nat>
    var nextSeq: nat

    ghost function State(): World
      reads this, store
    {
      World(pm, Memory(snapshots, closedLegs, processed, nextSeq), store.events)
    }

    ghost predicate Valid()
      reads this, store
    {
      Sourced(store.events) && Caught(store.events, applied, (p: Payload) => p.Position?)
    }

    /** The fields are the books the log replays to, up to late fills. */
    ghost predicate Faithful()
      reads this, store
    {
      PR.Good(State())
    }

    constructor Empty(pm: string, store: SharedLog<Key, Payload>)
      ensures this.pm == pm && this.store == store && applied == {}
      ensures Memory(snapshots, closedLegs, processed, nextSeq) == Initial
    {
      this.pm, this.store := pm, store;
      snapshots, closedLegs, processed, applied, nextSeq := map[], map[], map[], {}, 1;
    }

    /** Rebuilds a manager from the shared log; null when the history does not replay. */
    static method Construct(pm: string, store: SharedLog<Key, Payload>) returns (m: PositionManager?)
      requires Ordered(store.events) && Sourced(store.events)
      ensures m == null <==> Replay(store.events).None?
      ensures m != null ==> fresh(m) && m.store == store && m.Valid()
                            && m.State() == World(pm, Replay(store.events).value, store.events)
      ensures m != null && PH.Proper(pm, store.events) ==> m.Faithful()
    {
      m := new PositionManager.Empty(pm, store);
      var i := 0;
      while i < |store.events|
        invariant 0 <= i <= |store.events| && fresh(m) && m.store == store && m.pm == pm
        invariant Replay(store.events[..i]) == Some(Memory(m.snapshots, m.closedLegs, m.processed, m.nextSeq))
        invariant Caught(store.events[..i], m.applied, (p: Payload) => p.Position?)
      {
        var e := store.events[i];
        NextEvent(store.events, i);
        ReplayNext(store.events, i);
        CaughtNext(store.events[..i], e, m.applied, (p: Payload) => p.Position?);
        if e.payload.Position? {
          var ok := m.ApplyEvent(e);
          if !ok {
            ReplayStaysBroken(store.events, i + 1);
            return null;
          }
        }
        i := i + 1;
      }
      assert store.events[..i] == store.events;
    }

    method Remember(pid: string, fillId: string)
      modifies this`processed
      ensures Memory(snapshots, closedLegs, processed, nextSeq)
           == Positions.Remember(old(Memory(snapshots, closedLegs, processed, nextSeq)), pid, fillId)
    {
      processed := processed[pid := (if pid in processed then processed[pid] else {}) + {fillId}];
    }

    /** Applies one persisted event, once; false is the replay-integrity error. */
    method ApplyEvent(e: Entry) returns (ok: bool)
      requires e.payload.Position?
      modifies this`snapshots, this`closedLegs, this`processed, this`applied, this`nextSeq
      ensures applied == old(applied) + {e.id}
      ensures e.id in old(applied) ==>
        ok && Memory(snapshots, closedLegs, processed, nextSeq) == old(Memory(snapshots, closedLegs, processed, nextSeq))
      ensures e.id !in old(applied) ==>
        var before := old(Memory(snapshots, closedLegs, processed, nextSeq));
        && ok == Apply(before, e.payload.position).Some?
        && Memory(snapshots, closedLegs, processed, nextSeq) == Apply(before, e.payload.position).GetOr(before)
    {
      if e.id in applied { return true; }
      applied := applied + {e.id};
      match e.payload.position {
        case Created(n, pid, terms) =>
          if n + 1 > nextSeq {
            nextSeq := n + 1;
          }
          snapshots := snapshots[pid := Snapshot(New, terms, 0.0, 0.0, None, 0.0, 0.0, 0.0, 0.0)];
          if pid !in closedLegs {
            closedLegs := closedLegs[pid := []];
          }
          if pid !in processed {
            processed := processed[pid := {}];
          }
        case FirstTouch(pid, fillId, price) =>
          if !(pid in snapshots && snapshots[pid].state == New) { return false; }
          Remember(pid, OpenMark(fillId));
          snapshots := snapshots[pid := Touched(snapshots[pid], price)];
        case EntryFill(pid, trigger, source, target, fillId, price, quantity, fee) =>
          if !(pid in snapshots && snapshots[pid].state == source && Next(source, trigger) == Some(target)) { return false; }
          if !AverageDefined(snapshots[pid].avg, snapshots[pid].filled, quantity) { return false; }
          Remember(pid, fillId);
          snapshots := snapshots[pid := Entered(snapshots[pid], target, price, quantity, fee)];
        case Exit(pid, trigger, source, target, fillId, leg) =>
          if !(pid in snapshots && snapshots[pid].state == source && Next(source, trigger) == Some(target)) { return false; }
          Remember(pid, fillId);
          closedLegs := closedLegs[pid := (if pid in closedLegs then closedLegs[pid] else []) + [leg]];
          snapshots := snapshots[pid := Exited(snapshots[pid], target, leg)];
        case Moved(pid, trigger, source, target) =>
          if !(pid in snapshots && snapshots[pid].state == source && Next(source, trigger) == Some(target)) { return false; }
          snapshots := snapshots[pid := snapshots[pid].(state := target)];
        case FundingPaid(pid, _, amount) =>
          if pid !in snapshots { return false; }
          snapshots := snapshots[pid := snapshots[pid].(funding := snapshots[pid].funding + amount)];
      }
      return true;
    }

    method PersistRecord(r: PositionRecord)
      requires Valid()
      modifies this, store
      ensures Valid() && State() == Persist(old(State()), r)
    {
      var e := store.Append(Some(ForPosition(KeyOf(r))), Position(r));
      var ok := ApplyEvent(e);
    }

    method Create(terms: PositionTerms) returns (out: Outcome)
      requires Valid()
      modifies this, store
      ensures Valid() && (State(), out) == CreatePosition(old(State()), terms)
      ensures old(Faithful()) ==> Faithful()
    {
      hide PR.Good;
      FaithfulThrough(State(), PR.Create(terms));
      if terms.intended <= 0.0 || terms.stopD <= 0.0 { return Raised(BadValue); }
      var n := nextSeq;
      nextSeq := nextSeq + 1;
      var pid := MakeId(pm, n);
      PersistRecord(Created(n, pid, terms));
      out := if pid in snapshots then Snap(snapshots[pid]) else Raised(NotFound);
    }

    method TakeEntryFill(pid: string, fill: Fill) returns (out: Outcome)
      requires Valid()
      modifies this, store
      ensures Valid() && (State(), out) == RecordEntryFill(old(State()), pid, fill)
      ensures old(Faithful()) ==> Faithful()
    {
      hide PR.Good;
      FaithfulThrough(State(), PR.EntryFilled(pid, fill));
      if pid !in snapshots { return Raised(NotFound); }
      var existing := snapshots[pid];
      if pid in processed && fill.id in processed[pid] { return Snap(existing); }
      if !Entering(existing.state) { return Raised(IllegalTransition); }
      // Step 1: NEW to OPEN on the first fill.
      if existing.state == New {
        PersistRecord(FirstTouch(pid, fill.id, fill.price));
      }
      if pid !in snapshots { return Raised(NotFound); }
      // Step 2: what this fill makes of the position.
      var s := snapshots[pid];
      var t := if existing.filled + fill.quantity >= s.terms.intended then EntryComplete else EntryPartial;
      match TryTransition(s.state, t) {
        case StaleNoOp => return Snap(s);
        case Contradiction => return Raised(Inconsistent);
        case Moves(to) =>
          PersistRecord(EntryFill(pid, t, s.state, to, fill.id, fill.price, fill.quantity, fill.fee));
          return if pid in snapshots then Snap(snapshots[pid]) else Raised(NotFound);
      }
    }

    method TakeExit(pid: string, fill: Fill, trigger: Trigger, reason: Option<string>) returns (out: Outcome)
      requires Valid()
      modifies this, store
      ensures Valid() && (State(), out) == RecordExit(old(State()), pid, fill, trigger, reason)
      ensures old(Faithful()) ==> Faithful()
    {
      hide PR.Good;
      FaithfulThrough(State(), PR.ExitFilled(pid, fill, trigger, reason));
      if !ExitTrigger(trigger) { return Raised(BadValue); }
      if pid !in snapshots { return Raised(NotFound); }
      var s := snapshots[pid];
      if pid in processed && fill.id in processed[pid] { return Snap(s); }
      match TryTransition(s.state, trigger) {
        case StaleNoOp =>
          Remember(pid, fill.id);
          return Snap(s);
        case Contradiction => return Raised(Inconsistent);
        case Moves(to) =>
          if s.avg.None? { return Raised(Inconsistent); }
          if s.avg.value <= 0.0 || s.terms.stopD <= 0.0 || s.terms.intended <= 0.0 { return Raised(BadValue); }
          var leg := NewLeg(s, fill, LegReason(trigger, s.state, reason));
          PersistRecord(Exit(pid, trigger, s.state, to, fill.id, leg));
          return if pid in snapshots then Snap(snapshots[pid]) else Raised(NotFound);
      }
    }

    method Move(pid: string, trigger: Trigger) returns (out: Outcome)
      requires Valid() && trigger in {Breakeven, CompleteClose, Archive}
      modifies this, store
      ensures Valid() && (State(), out) == MovePosition(old(State()), pid, trigger)
      ensures old(Faithful()) ==> Faithful()
    {
      hide PR.Good;
      FaithfulThrough(State(), PR.Move(pid, trigger));
      if pid !in snapshots { return Raised(NotFound); }
      var s := snapshots[pid];
      match TryTransition(s.state, trigger) {
        case StaleNoOp => return Snap(s);
        case Contradiction => return Raised(Inconsistent);
        case Moves(to) =>
          PersistRecord(Moved(pid, trigger, s.state, to));
          return if pid in snapshots then Snap(snapshots[pid]) else Raised(NotFound);
      }
    }

    method TakeFunding(pid: string, amount: real, fundingId: string) returns (out: Outcome)
      requires Valid()
      modifies this, store
      ensures Valid() && (State(), out) == RecordFunding(old(State()), pid, amount, fundingId)
      ensures old(Faithful()) ==> Faithful()
    {
      hide PR.Good;
      FaithfulThrough(State(), PR.Fund(pid, amount, fundingId));
      if pid !in snapshots { return Raised(NotFound); }
      PersistRecord(FundingPaid(pid, fundingId, amount));
      out := if pid in snapshots then Snap(snapshots[pid]) else Raised(NotFound);
    }
  }

  lemma FaithfulThrough(w: World, c: PR.Call)
    ensures PR.Good(w) ==> PR.Good(PR.Do(w, c).0)
  {
    if PR.Good(w) {
      PR.DoKeeps(w, c);
    }
  }

  /** One more event of the log. */
  lemma ReplayNext(log: Log, i: nat)
    requires i < |log|
    ensures Replay(log[..i + 1]) ==
      if Replay(log[..i]).Some? && log[i].payload.Position? then Apply(Replay(log[..i]).value, log[i].payload.position)
      else Replay(log[..i])
  {
    var upTo := log[..i + 1];
    assert upTo[..|upTo| - 1] == log[..i] && upTo[|upTo| - 1] == log[i];
  }

  /** Once a history fails to replay, no longer one does. */
  lemma {:induction false} ReplayStaysBroken(log: Log, n: nat)
    requires n <= |log| && Replay(log[..n]).None?
    ensures Replay(log).None?
    decreases |log|
  {
    if n < |log| {
      assert log[..|log| - 1][..n] == log[..n];
      ReplayStaysBroken(log[..|log| - 1], n);
    } else {
      assert log[..n] == log;
    }
  }
}
