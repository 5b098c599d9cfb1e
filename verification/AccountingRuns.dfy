/**
 What every pass over the fills keeps: the desk in memory is the one a new process would
 build from the log, apart from its re-countable accumulators.
 */
module AccountingRuns {
  import opened Wrappers
  import opened EventLog
  import opened Records
  import opened Accounting
  import PS = PositionStates
  import P = Positions
  import PH = PositionHistory
  import PR = PositionRuns
  import L = Portfolio

  function OwnKey(r: AccountingRecord): AccountingKey {
    match r
    case LevelsRecorded(cid, _, _) => LevelsKey(cid)
    case OrderMapped(cid, _) => MappedKey(cid)
  }

  /** Accounting records carry their own keys, and nobody else's records do. */
  ghost predicate OwnProper(log: Log) {
    log == [] ||
    var e := log[|log| - 1];
    && OwnProper(log[..|log| - 1])
    && (if e.payload.Accounting? then e.key == Some(ForAccounting(OwnKey(e.payload.accounting)))
        else e.key.Some? ==> !e.key.value.ForAccounting?)
  }

  ghost predicate LogSound(pm: string, log: Log) {
    Ordered(log) && PH.Proper(pm, log) && OwnProper(log)
  }

  ghost predicate Sound(d: Desk) {
    LogSound(d.pm, d.log) && d == Rebuilt(d, d.log)
  }

  /** Only records of other kinds than orders were added. */
  ghost predicate OrderFree(log: Log, longer: Log) {
    log <= longer && forall i :: |log| <= i < |longer| ==> !longer[i].payload.Order? && SameSource(longer[i].key, longer[i].payload)
  }

  /** A sound desk further down the log. */
  ghost predicate Follows(d: Desk, d': Desk) {
    && Sound(d') && d'.pm == d.pm && d'.leverage == d.leverage
    && OrderFree(d.log, d'.log)
  }

  /** What a component checks before it appends one event. */
  ghost predicate EntryOk(d: Desk, key: Key, p: Payload) {
    && !HasKey(d.log, key) && SameSource(Some(key), p) && !p.Order?
    && (p.Position? ==> key == ForPosition(P.KeyOf(p.position)) && PH.Guard(d.pm, d.positions, p.position)
                        && P.Apply(d.positions, p.position).Some?)
    && (p.Accounting? ==> key == ForAccounting(OwnKey(p.accounting)))
  }

  /** The desk after one more event. */
  function Took(d: Desk, key: Key, p: Payload): Desk {
    Rebuilt(d, Appended(d.log, Some(key), p))
  }

  lemma TookFields(d: Desk, key: Key, p: Payload)
    requires Sound(d) && EntryOk(d, key, p)
    ensures Took(d, key, p).log == d.log + [Event(NextId(d.log), Some(key), p)]
    ensures Took(d, key, p).positions == if p.Position? then P.Apply(d.positions, p.position).value else d.positions
    ensures Took(d, key, p).ledger == if p.Portfolio? then L.Apply(d.ledger, p.portfolio) else d.ledger
    ensures !p.Accounting? ==> Took(d, key, p).levels == d.levels && Took(d, key, p).mapped == d.mapped
    ensures p.Accounting? && p.accounting.OrderMapped? ==>
              && Took(d, key, p).levels == d.levels
              && Took(d, key, p).mapped == Assigned(d.mapped, Mapping(p.accounting.cid, p.accounting.pid))
    ensures p.Accounting? && p.accounting.LevelsRecorded? ==>
              && Took(d, key, p).mapped == d.mapped
              && Took(d, key, p).levels == d.levels[p.accounting.cid := Levels(p.accounting.entry, p.accounting.stop)]
  {
  }

  lemma TookIsSound(d: Desk, key: Key, p: Payload)
    requires Sound(d) && EntryOk(d, key, p)
    ensures Follows(d, Took(d, key, p))
  {
    var e := Event(NextId(d.log), Some(key), p);
    AppendedKeepsOrder(d.log, Some(key), p);
    PH.ProperSnoc(d.pm, d.log, e);
    assert (d.log + [e])[..|d.log|] == d.log;
  }

  lemma FollowsOn(d: Desk, d1: Desk, d2: Desk)
    requires Follows(d, d1) && Follows(d1, d2)
    ensures Follows(d, d2)
  {
  }

  // ---- the steps ----

  /** At most one event further. */
  ghost predicate OneStep(d: Desk, d': Desk) {
    Follows(d, d') && |d'.log| <= |d.log| + 1 && (d'.log == d.log ==> d' == d) && d'.closed == d.closed && d'.counted == d.counted
  }

  lemma AskSteps(d: Desk, q: L.Request)
    requires Sound(d)
    ensures OneStep(d, Ask(d, q).0)
    ensures Ask(d, q).0.positions == d.positions && Ask(d, q).0.mapped == d.mapped && Ask(d, q).0.levels == d.levels
    ensures Ask(d, q).0.log != d.log ==>
              && Ask(d, q).0.log == d.log + [Event(NextId(d.log), Some(ForPortfolio(L.KeyOf(q))), Portfolio(L.RecordOf(q)))]
              && Ask(d, q).0.ledger == L.Apply(d.ledger, L.RecordOf(q))
  {
    var key, p := ForPortfolio(L.KeyOf(q)), Portfolio(L.RecordOf(q));
    if L.AmountOk(q) && !L.AlreadyReleased(d.ledger, q) && !HasKey(d.log, key) && L.FundsError(d.ledger, q).None? {
      TookFields(d, key, p);
      TookIsSound(d, key, p);
      assert Ask(d, q).0 == Took(d, key, p);
    }
  }

  lemma {:induction false} MappedKeyed(log: Log, cid: string)
    requires OwnProper(log)
    ensures Lookup(MappedOn(log), cid).Some? <==> HasKey(log, ForAccounting(MappedKey(cid)))
  {
    if log != [] {
      var before, p := MappedOn(log[..|log| - 1]), log[|log| - 1].payload;
      MappedKeyed(log[..|log| - 1], cid);
      if p.Accounting? && p.accounting.OrderMapped? {
        AssignedLooksUp(before, Mapping(p.accounting.cid, p.accounting.pid), cid);
      }
    }
  }

  lemma {:induction false} AssignedLooksUp(mapped: seq<Mapping>, m: Mapping, cid: string)
    ensures Lookup(Assigned(mapped, m), cid) == if cid == m.cid then Some(m.pid) else Lookup(mapped, cid)
  {
    if mapped != [] {
      var front, last := mapped[..|mapped| - 1], mapped[|mapped| - 1];
      if last.cid == m.cid {
        assert (front + [m])[..|front|] == front;
      } else if Lookup(mapped, m.cid).None? {
        assert (mapped + [m])[..|mapped|] == mapped;
      } else {
        AssignedLooksUp(front, m, cid);
        assert (Assigned(front, m) + [last])[..|Assigned(front, m)|] == Assigned(front, m);
      }
    }
  }

  lemma {:induction false} LevelsKeyed(log: Log, cid: string)
    requires OwnProper(log)
    ensures cid in LevelsOn(log) <==> HasKey(log, ForAccounting(LevelsKey(cid)))
  {
    if log != [] {
      LevelsKeyed(log[..|log| - 1], cid);
    }
  }

  /** An order's position is decided once: no later record changes it. */
  lemma {:induction false} MappingStays(log: Log, n: nat, cid: string)
    requires Ordered(log) && OwnProper(log) && n <= |log| && Lookup(MappedOn(log[..n]), cid).Some?
    ensures Lookup(MappedOn(log), cid) == Lookup(MappedOn(log[..n]), cid)
    decreases |log|
  {
    if n == |log| {
      assert log[..n] == log;
    } else {
      var front, p := log[..|log| - 1], log[|log| - 1].payload;
      assert front[..n] == log[..n];
      MappingStays(front, n, cid);
      if p.Accounting? && p.accounting.OrderMapped? {
        MappedKeyed(front, cid);
        AssignedLooksUp(MappedOn(front), Mapping(p.accounting.cid, p.accounting.pid), cid);
      }
    }
  }

  lemma {:induction false} OwnProperPrefix(log: Log, n: nat)
    requires OwnProper(log) && n <= |log|
    ensures OwnProper(log[..n])
    decreases |log|
  {
    if n == |log| {
      assert log[..n] == log;
    } else {
      assert log[..|log| - 1][..n] == log[..n];
      OwnProperPrefix(log[..|log| - 1], n);
    }
  }

  lemma LogSoundPrefix(pm: string, log: Log, n: nat)
    requires LogSound(pm, log) && n <= |log|
    ensures LogSound(pm, log[..n])
  {
    PrefixKeepsOrder(log, n);
    PH.ProperPrefix(pm, log, n);
    OwnProperPrefix(log, n);
  }

  lemma MapSteps(d: Desk, cid: string, pid: string)
    requires Sound(d) && Lookup(d.mapped, cid).None?
    ensures OneStep(d, MapOrder(d, cid, pid)) && |MapOrder(d, cid, pid).log| == |d.log| + 1
    ensures MapOrder(d, cid, pid).log[|d.log|].payload == Accounting(OrderMapped(cid, pid))
    ensures Lookup(MapOrder(d, cid, pid).mapped, cid) == Some(pid)
  {
    var key, p := ForAccounting(MappedKey(cid)), Accounting(OrderMapped(cid, pid));
    MappedKeyed(d.log, cid);
    TookFields(d, key, p);
    TookIsSound(d, key, p);
    assert MapOrder(d, cid, pid) == Took(d, key, p);
    AssignedLooksUp(d.mapped, Mapping(cid, pid), cid);
  }

  lemma RecordLevelsSteps(d: Desk, x: Execution)
    requires Sound(d)
    ensures OneStep(d, RecordLevels(d, x))
  {
    if x.levels.Some? && x.cid !in d.levels {
      var key, p := ForAccounting(LevelsKey(x.cid)), Accounting(LevelsRecorded(x.cid, x.levels.value.entry, x.levels.value.stop));
      LevelsKeyed(d.log, x.cid);
      TookFields(d, key, p);
      TookIsSound(d, key, p);
      assert RecordLevels(d, x) == Took(d, key, p);
    }
  }

  lemma PositionWorldIsGood(d: Desk)
    requires Sound(d)
    ensures PR.Good(PositionWorld(d))
  {
  }

  /** A position record under a free key: persisted, applied, and the desk stays the rebuilt one. */
  lemma PersistSteps(d: Desk, r: PositionRecord)
    requires Sound(d) && PH.Guard(d.pm, d.positions, r) && !HasKey(d.log, ForPosition(P.KeyOf(r)))
    ensures P.Apply(d.positions, r).Some?
    ensures var d' := WithPositions(d, P.Persist(PositionWorld(d), r));
      && OneStep(d, d') && d'.positions == P.Apply(d.positions, r).value
      && d'.log == d.log + [Event(NextId(d.log), Some(ForPosition(P.KeyOf(r))), Position(r))]
      && d'.ledger == d.ledger && d'.mapped == d.mapped && d'.levels == d.levels
  {
    PositionWorldIsGood(d);
    PR.GuardedRecordsApply(PositionWorld(d), r);
    var key, p := ForPosition(P.KeyOf(r)), Position(r);
    TookFields(d, key, p);
    TookIsSound(d, key, p);
    assert WithPositions(d, P.Persist(PositionWorld(d), r)) == Took(d, key, p);
  }

  lemma CreateSteps(d: Desk, terms: PositionTerms)
    requires Sound(d) && terms.intended > 0.0 && terms.stopD > 0.0
    ensures var (w, out) := P.CreatePosition(PositionWorld(d), terms);
      && out.Snap? && OneStep(d, WithPositions(d, w)) && |w.log| == |d.log| + 1
      && w.log[|d.log|].payload.Position? && w.log[|d.log|].payload.position.Created?
      && P.MakeId(d.pm, d.positions.nextSeq) in w.mem.snapshots
      && w.mem.snapshots[P.MakeId(d.pm, d.positions.nextSeq)].state == PS.New
      && w.mem.snapshots[P.MakeId(d.pm, d.positions.nextSeq)].terms == terms
      && w.mem.nextSeq == d.positions.nextSeq + 1
  {
    var n := d.positions.nextSeq;
    var pid := P.MakeId(d.pm, n);
    var r := Created(n, pid, terms);
    PositionWorldIsGood(d);
    PR.NextPidIsNew(PositionWorld(d));
    PersistSteps(d, r);
    assert P.Apply(d.positions.(nextSeq := n + 1), r) == P.Apply(d.positions, r);
  }

  // ---- an entry fill's two durable steps ----

  /** The first fill opens the position; later fills find it open. */
  function Touch(d: Desk, pid: string, f: Fill): Desk
    requires pid in d.positions.snapshots
  {
    if d.positions.snapshots[pid].state == PS.New
    then WithPositions(d, P.Persist(PositionWorld(d), FirstTouch(pid, f.id, f.price))) else d
  }

  function Enter(d: Desk, pid: string, f: Fill): Desk
    requires pid in d.positions.snapshots
  {
    WithPositions(d, P.ClassifyFill(PositionWorld(d), pid, d.positions.snapshots[pid].filled, f).0)
  }

  /** A fill this position has yet to take. */
  predicate Pending(d: Desk, pid: string, f: Fill) {
    pid in d.positions.snapshots && PS.Entering(d.positions.snapshots[pid].state) && f.id !in P.ProcessedOf(d.positions, pid)
  }

  lemma TouchSteps(d: Desk, pid: string, f: Fill)
    requires Sound(d) && Pending(d, pid, f)
    ensures var d1 := Touch(d, pid, f);
      && OneStep(d, d1) && Pending(d1, pid, f) && d1.positions.snapshots[pid].state != PS.New
      && d1.positions.snapshots[pid].filled == d.positions.snapshots[pid].filled
      && d1.ledger == d.ledger && d1.mapped == d.mapped && d1.levels == d.levels
      && (d1.log != d.log ==> d1.log[|d.log|].payload == Position(FirstTouch(pid, f.id, f.price)))
  {
    if d.positions.snapshots[pid].state == PS.New {
      var r := FirstTouch(pid, f.id, f.price);
      PositionWorldIsGood(d);
      PR.PersistIsFresh(PositionWorld(d), r);
      PersistSteps(d, r);
      PR.MarkIsAnotherId(f.id);
    }
  }

  lemma EnterSteps(d: Desk, pid: string, f: Fill)
    requires Sound(d) && Pending(d, pid, f) && d.positions.snapshots[pid].state != PS.New
    ensures P.ClassifyFill(PositionWorld(d), pid, d.positions.snapshots[pid].filled, f).1.Snap?
    ensures var d1 := Enter(d, pid, f);
      && OneStep(d, d1) && |d1.log| == |d.log| + 1
      && pid in d1.positions.snapshots && f.id in P.ProcessedOf(d1.positions, pid)
      && d1.positions.snapshots[pid].state in {PS.PartiallyFilled, PS.FullyFilled}
      && d1.log[|d.log|].payload.Position? && d1.log[|d.log|].payload.position.EntryFill?
      && P.ClassifyFill(PositionWorld(d), pid, d.positions.snapshots[pid].filled, f).1.snapshot == d1.positions.snapshots[pid]
      && d1.ledger == d.ledger && d1.mapped == d.mapped && d1.levels == d.levels
  {
    var s := d.positions.snapshots[pid];
    var t := if s.filled + f.quantity >= s.terms.intended then PS.EntryComplete else PS.EntryPartial;
    var r := EntryFill(pid, t, s.state, PS.Next(s.state, t).value, f.id, f.price, f.quantity, f.fee);
    PositionWorldIsGood(d);
    PR.PersistIsFresh(PositionWorld(d), r);
    PersistSteps(d, r);
  }

  /** Recording an entry fill is opening the position if it is new, then classifying the fill. */
  lemma RecordIsTouchThenEnter(d: Desk, pid: string, f: Fill)
    requires Sound(d) && Pending(d, pid, f)
    ensures var d1 := Touch(d, pid, f);
      && pid in d1.positions.snapshots
      && WithPositions(d, P.RecordEntryFill(PositionWorld(d), pid, f).0) == Enter(d1, pid, f)
      && P.RecordEntryFill(PositionWorld(d), pid, f).1
      == P.ClassifyFill(PositionWorld(d1), pid, d1.positions.snapshots[pid].filled, f).1
  {
    TouchSteps(d, pid, f);
    var d1 := Touch(d, pid, f);
    assert PositionWorld(d1) == if d.positions.snapshots[pid].state == PS.New
      then P.Persist(PositionWorld(d), FirstTouch(pid, f.id, f.price)) else PositionWorld(d);
  }

  // ---- cutting the log ----

  /** Rebuilding from a cut in front of a step, or behind it. */
  lemma CutAtStep(d: Desk, d1: Desk, d2: Desk, n: nat)
    requires Sound(d) && OneStep(d, d1) && Follows(d1, d2) && |d.log| <= n <= |d2.log|
    ensures n == |d.log| || |d1.log| <= n
    ensures n == |d.log| ==> Rebuilt(d, d2.log[..n]) == d
    ensures Rebuilt(d, d2.log[..n]) == Rebuilt(d1, d2.log[..n])
  {
    if n == |d.log| {
      assert d2.log[..n] == d.log;
    }
  }

  /** A desk rebuilt from a cut in a row of three steps is one of the desks in the row. */
  lemma CutInThree(d: Desk, d1: Desk, d2: Desk, d3: Desk, n: nat)
    requires Sound(d) && OneStep(d, d1) && OneStep(d1, d2) && OneStep(d2, d3) && |d.log| <= n <= |d3.log|
    ensures Rebuilt(d, d3.log[..n]) in {d, d1, d2, d3}
  {
    FollowsOn(d1, d2, d3);
    CutAtStep(d, d1, d3, n);
    if n > |d.log| {
      CutAtStep(d1, d2, d3, n);
      if n > |d1.log| {
        CutAtStep(d2, d3, d3, n);
        assert n > |d2.log| ==> d3.log[..n] == d3.log;
      }
    }
  }
}
