/**
 What booking one venue fill does to the three ledgers: which position it enters or closes,
 on which terms, what margin it takes and returns, what it earns, and what is noted.
 */
module AccountingLaws {
  import opened Wrappers
  import opened Text
  import opened EventLog
  import opened Records
  import opened Sums
  import opened Accounting
  import opened AccountingRuns
  import opened AccountingHealing
  import opened ExitHealing
  import opened CrashHealing
  import opened FillTrail
  import opened LedgerRuns
  import PS = PositionStates
  import O = Orders
  import OR = OrderRuns
  import P = Positions
  import PH = PositionHistory
  import PR = PositionRuns
  import PL = PositionLaws
  import L = Portfolio

  // ---- levels ----

  /** Levels are recorded for an order once, by one record, when it came with some. */
  lemma LevelsBook(d: Desk, x: Execution)
    requires Sound(d)
    ensures var d' := RecordLevels(d, x);
      if x.levels.Some? && x.cid !in d.levels then
        && d'.levels == d.levels[x.cid := x.levels.value]
        && d'.log == d.log + [Event(NextId(d.log), Some(ForAccounting(LevelsKey(x.cid))),
             Accounting(LevelsRecorded(x.cid, x.levels.value.entry, x.levels.value.stop)))]
        && d' == Rebuilt(d, d'.log)
      else d' == d
  {
    RecordLevelsSteps(d, x);
    if x.levels.Some? && x.cid !in d.levels {
      LevelsKeyed(d.log, x.cid);
    }
  }

  // ---- the position a fill could be closing ----

  /** A live position of the fill's symbol, on the other side, with something left. */
  predicate Closes(m: P.Memory, pid: string, symbol: string, side: Side) {
    pid in m.snapshots &&
    var s := m.snapshots[pid];
    && s.terms.symbol == symbol && s.terms.side != side
    && s.state != PS.Closed && s.state != PS.Archived && s.remaining > 0.0
  }

  /** The first mapping whose position the fill could be closing, or none when there is none. */
  lemma {:induction false} FirstMatch(m: P.Memory, mapped: seq<Mapping>, symbol: string, side: Side)
    ensures match FindOpen(m, mapped, symbol, side)
      case Some(pid) =>
        exists i :: 0 <= i < |mapped| && mapped[i].pid == pid && Closes(m, pid, symbol, side)
                    && forall j :: 0 <= j < i ==> !Closes(m, mapped[j].pid, symbol, side)
      case None => forall i :: 0 <= i < |mapped| ==> !Closes(m, mapped[i].pid, symbol, side)
  {
    if mapped != [] {
      var front, last := mapped[..|mapped| - 1], mapped[|mapped| - 1];
      FirstMatch(m, front, symbol, side);
      assert Matches(m, last.pid, symbol, side) <==> Closes(m, last.pid, symbol, side);
      if FindOpen(m, front, symbol, side).Some? {
        var pid := FindOpen(m, front, symbol, side).value;
        var i :| 0 <= i < |front| && front[i].pid == pid && Closes(m, pid, symbol, side)
                 && forall j :: 0 <= j < i ==> !Closes(m, front[j].pid, symbol, side);
        assert mapped[i].pid == pid && forall j :: 0 <= j < i ==> mapped[j] == front[j];
      } else {
        assert forall i :: 0 <= i < |front| ==> mapped[i] == front[i];
        assert mapped[|mapped| - 1] == last;
      }
    }
  }

  // ---- margin ----

  /** What the ledger charges for an entry fill. */
  function Charge(f: Fill): real {
    if f.fee > 0.0 then f.fee else 0.0
  }

  predicate Unbooked(log: Log, pid: string, f: Fill) {
    && !HasKey(log, ForPortfolio(ReserveKey(pid, f.id))) && !HasKey(log, ForPortfolio(AllocateKey(pid, f.id)))
    && !HasKey(log, ForPortfolio(FeeKey(pid, f.id)))
  }

  /** Margin taken from cash for the position, and the fee charged. */
  ghost predicate TookMargin(before: L.Memory, after: L.Memory, pid: string, m: real, fee: real) {
    && after.cash == before.cash - m - fee && after.used == before.used + m && after.reserved == before.reserved
    && At(after.usedBy, pid) == At(before.usedBy, pid) + m && At(after.reservedBy, pid) == At(before.reservedBy, pid)
    && (forall other :: other != pid ==> At(after.usedBy, other) == At(before.usedBy, other))
    && (forall other :: other != pid ==> At(after.reservedBy, other) == At(before.reservedBy, other))
    && after.fees == before.fees + fee
    && after.realized == before.realized && after.funding == before.funding
    && after.deposits == before.deposits && after.withdrawals == before.withdrawals && after.released == before.released
  }

  lemma MarginTimesLeverage(d: Desk, f: Fill)
    ensures Margin(d, f) * d.leverage == f.quantity * f.price
  {
    var notional := f.quantity * f.price;
    assert notional / d.leverage * d.leverage == notional;
  }

  lemma ReserveThenAllocate(m: L.Memory, pid: string, amount: real)
    requires L.Balanced(m)
    ensures At(m.reservedBy, pid) >= 0.0
    ensures TookMargin(m, L.Apply(L.Apply(m, Reserved(pid, amount)), Allocated(pid, amount)), pid, amount, 0.0)
  {
    hide L.Balanced;
    ReservedIsNotNegative(m, pid);
  }

  lemma ReservedIsNotNegative(m: L.Memory, pid: string)
    requires L.Balanced(m)
    ensures At(m.reservedBy, pid) >= 0.0
  {
  }

  /** A reservation or allocation asked for the first time. */
  lemma FirstAsk(d: Desk, q: L.Request)
    requires (q.Reserve? || q.Allocate?) && !HasKey(d.log, ForPortfolio(L.KeyOf(q)))
    ensures var funds := if q.Reserve? then d.ledger.cash else At(d.ledger.reservedBy, q.pid);
      Ask(d, q).1 == (if q.amount <= 0.0 then L.Refused(L.BadAmount)
                      else if q.amount <= funds then L.Done
                      else L.Refused(if q.Reserve? then L.InsufficientFunds else L.InsufficientMargin))
    ensures Ask(d, q).1.Done? ==>
      Ask(d, q).0.ledger == L.Apply(d.ledger, if q.Reserve? then Reserved(q.pid, q.amount) else Allocated(q.pid, q.amount))
    ensures Ask(d, q).1.Refused? ==> Ask(d, q).0 == d
  {
  }

  lemma TakeFrame(d: Desk, pid: string, f: Fill)
    requires Sound(d) && Unbooked(d.log, pid, f)
    ensures var d1, d' := Ask(d, L.Reserve(pid, Margin(d, f), f.id)).0, TakeMargin(d, pid, f).0;
      && Follows(d, d') && Sound(d1)
      && !HasKey(d1.log, ForPortfolio(AllocateKey(pid, f.id))) && !HasKey(d'.log, ForPortfolio(FeeKey(pid, f.id)))
  {
    var m := Margin(d, f);
    var reserve, allocate := L.Reserve(pid, m, f.id), L.Allocate(pid, m, f.id);
    var d1 := Ask(d, reserve).0;
    MarginSteps(d, pid, f);
    FollowsOn(d, d1, TakeMargin(d, pid, f).0);
    KeyStaysFree(d, reserve, AllocateKey(pid, f.id));
    KeyStaysFree(d, reserve, FeeKey(pid, f.id));
    KeyStaysFree(d1, allocate, FeeKey(pid, f.id));
    hide Sound, LogSound, Ask, Margin;
  }

  lemma TakeBooks(d: Desk, pid: string, f: Fill)
    requires Sound(d) && LedgerProper(d.log) && Unbooked(d.log, pid, f)
    ensures var m, (d', out) := Margin(d, f), TakeMargin(d, pid, f);
      if m <= 0.0 then (d', out) == (d, L.Refused(L.BadAmount))
      else if m > d.ledger.cash then (d', out) == (d, L.Refused(L.InsufficientFunds))
      else out == L.Done && TookMargin(d.ledger, d'.ledger, pid, m, 0.0)
  {
    var m := Margin(d, f);
    var reserve, allocate := L.Reserve(pid, m, f.id), L.Allocate(pid, m, f.id);
    TakeFrame(d, pid, f);
    FirstAsk(d, reserve);
    FirstAsk(Ask(d, reserve).0, allocate);
    if 0.0 < m <= d.ledger.cash {
      ProperIsGood(d.log);
      ReserveThenAllocate(d.ledger, pid, m);
      EnoughReserved(d.ledger, pid, m);
    }
    hide Sound, L.Balanced, Follows, Margin, TookMargin, Ask, L.Apply;
  }

  lemma EnoughReserved(m: L.Memory, pid: string, amount: real)
    requires At(m.reservedBy, pid) >= 0.0
    ensures amount <= At(L.Apply(m, Reserved(pid, amount)).reservedBy, pid)
  {
  }

  /**
   The margin of a first booking, m with m times the leverage equal to the notional.  It is
   taken when it is positive and covered by cash; without cover only the fee is charged
   and the failure is noted; a margin that is not positive stops the booking.
   */
  lemma MarginBooks(d: Desk, pid: string, f: Fill) returns (m: real)
    requires Sound(d) && LedgerProper(d.log) && Unbooked(d.log, pid, f)
    ensures m * d.leverage == f.quantity * f.price
    ensures var (d', notes) := BookMargin(d, pid, f);
      if m <= 0.0 then (d', notes) == (d, [Note(f.id, Raised)])
      else
        && TookMargin(d.ledger, d'.ledger, pid, if m <= d.ledger.cash then m else 0.0, Charge(f))
        && notes == (if m <= d.ledger.cash then [] else [Note(f.id, MarginFailed)])
  {
    m := Margin(d, f);
    MarginTimesLeverage(d, f);
    hide TakeMargin, BookFee, Margin, Sound, Follows, LedgerProper, Unbooked, HasKey, Charge;
    TakeFrame(d, pid, f);
    TakeBooks(d, pid, f);
    var d1 := TakeMargin(d, pid, f).0;
    FeeBooks(d1, pid, f);
    ChargedToo(d.ledger, d1.ledger, BookFee(d1, pid, f).ledger, pid, m, Charge(f));
    ChargedToo(d.ledger, d.ledger, BookFee(d, pid, f).ledger, pid, 0.0, Charge(f));
    hide TookMargin;
  }

  lemma ChargedToo(before: L.Memory, taken: L.Memory, after: L.Memory, pid: string, m: real, fee: real)
    ensures after == taken.(cash := taken.cash - fee, fees := taken.fees + fee) && TookMargin(before, taken, pid, m, 0.0) ==>
      TookMargin(before, after, pid, m, fee)
    ensures TookMargin(before, before, pid, 0.0, 0.0)
  {
  }

  lemma FeeBooks(d: Desk, pid: string, f: Fill)
    requires !HasKey(d.log, ForPortfolio(FeeKey(pid, f.id)))
    ensures BookFee(d, pid, f).ledger == d.ledger.(cash := d.ledger.cash - Charge(f), fees := d.ledger.fees + Charge(f))
  {
  }

  // ---- entry fills ----

  lemma {:induction false} KeysOn(log: Log, longer: Log, key: PortfolioKey)
    requires LedgerFree(log, longer) && !HasKey(log, ForPortfolio(key))
    ensures !HasKey(longer, ForPortfolio(key))
    decreases |longer|
  {
    if |longer| > |log| {
      KeysOn(log, longer[..|longer| - 1], key);
    } else {
      assert longer == log;
    }
  }

  lemma UnbookedOn(log: Log, longer: Log, pid: string, f: Fill)
    requires LedgerFree(log, longer) && Unbooked(log, pid, f)
    ensures Unbooked(longer, pid, f)
  {
    KeysOn(log, longer, ReserveKey(pid, f.id));
    KeysOn(log, longer, AllocateKey(pid, f.id));
    KeysOn(log, longer, FeeKey(pid, f.id));
  }

  /** What booking an entry fill into its position leaves: the position with the fill, and the ledger with its margin and fee. */
  ghost predicate Entered(d: Desk, pid: string, s: P.Snapshot, f: Fill, m: real, s': P.Snapshot, d': Desk, notes: seq<Note>) {
    && m * d.leverage == f.quantity * f.price
    && PL.EntersWith(s, s', f) && d'.positions.snapshots == d.positions.snapshots[pid := s']
    && if m <= 0.0 then d'.ledger == d.ledger && notes == [Note(f.id, Raised)]
       else
         && TookMargin(d.ledger, d'.ledger, pid, if m <= d.ledger.cash then m else 0.0, Charge(f))
         && notes == if m <= d.ledger.cash then [] else [Note(f.id, MarginFailed)]
  }

  lemma EnterBooks(d: Desk, pid: string, f: Fill) returns (d2: Desk, s': P.Snapshot)
    requires Sound(d) && Pending(d, pid, f)
    ensures BookInto(d, pid, f) == BookMargin(d2, pid, f)
    ensures Follows(d, d2) && LedgerFree(d.log, d2.log) && d2.ledger == d.ledger && d2.mapped == d.mapped
    ensures PL.EntersWith(d.positions.snapshots[pid], s', f) && d2.positions.snapshots == d.positions.snapshots[pid := s']
  {
    var d1 := Touch(d, pid, f);
    d2 := Enter(d1, pid, f);
    PendingFillBooks(d, pid, f);
    TouchSteps(d, pid, f);
    EnterSteps(d1, pid, f);
    s' := EnterWrites(d, pid, f);
    hide Touch, Enter, BookInto, BookMargin, Sound, LogSound, PL.EntersWith;
    FollowsOn(d, d1, d2);
    EnteredFree(d, d1, d2);
  }

  lemma EnterWrites(d: Desk, pid: string, f: Fill) returns (s': P.Snapshot)
    requires Sound(d) && Pending(d, pid, f) && Pending(Touch(d, pid, f), pid, f)
    ensures PL.EntersWith(d.positions.snapshots[pid], s', f)
    ensures Enter(Touch(d, pid, f), pid, f).positions.snapshots == d.positions.snapshots[pid := s']
  {
    RecordIsTouchThenEnter(d, pid, f);
    PositionWorldIsGood(d);
    PL.EntryBooks(PositionWorld(d), pid, f);
    hide *;
    s' := P.RecordEntryFill(PositionWorld(d), pid, f).0.mem.snapshots[pid];
    WithPositionsOf(d, P.RecordEntryFill(PositionWorld(d), pid, f).0);
    WorldOf(d);
  }

  lemma WithPositionsOf(d: Desk, w: P.World)
    ensures WithPositions(d, w).positions == w.mem
  {
  }

  lemma WorldOf(d: Desk)
    ensures PositionWorld(d).mem == d.positions
  {
  }

  lemma EnteredFree(d: Desk, d1: Desk, d2: Desk)
    requires OneStep(d, d1) && OneStep(d1, d2)
    requires d1.log != d.log ==> d1.log[|d.log|].payload.Position?
    requires d2.log != d1.log ==> d2.log[|d1.log|].payload.Position?
    ensures LedgerFree(d.log, d2.log)
  {
    forall i | |d.log| <= i < |d2.log|
      ensures !d2.log[i].payload.Portfolio? && SameSource(d2.log[i].key, d2.log[i].payload)
    {
      if i < |d1.log| {
        assert d2.log[i] == d1.log[i];
      }
    }
  }

  /** A fill its mapped position has yet to take. */
  lemma IntoBooks(d: Desk, pid: string, f: Fill) returns (m: real, s': P.Snapshot)
    requires Sound(d) && LedgerProper(d.log) && Pending(d, pid, f) && Unbooked(d.log, pid, f)
    ensures var (d', notes) := BookInto(d, pid, f); Entered(d, pid, d.positions.snapshots[pid], f, m, s', d', notes) && d'.mapped == d.mapped
  {
    hide Sound, LogSound, LedgerProper, LedgerFree, BookMargin, BookInto, TookMargin, PL.EntersWith, Unbooked, OrderFree, Pending;
    var d2;
    d2, s' := EnterBooks(d, pid, f);
    LedgerPassesOver(d.log, d2.log);
    UnbookedOn(d.log, d2.log, pid, f);
    m := MarginBooks(d2, pid, f);
    MarginFollows(d2, pid, f);
  }

  /** The terms of a position opened by the first fill of an order with these levels. */
  function Opens(f: Fill, intended: real, l: Levels): PositionTerms {
    var step := if l.entry > l.stop then l.entry - l.stop else l.stop - l.entry;
    if f.side == Buy then PositionTerms(f.symbol, Buy, intended, l.stop, step, l.entry + step, l.entry + 2.0 * step, None)
    else PositionTerms(f.symbol, Sell, intended, l.stop, step, l.entry - step, l.entry - 2.0 * step, None)
  }

  lemma CreationIs(d: Desk, f: Fill, intended: real) returns (dm: Desk)
    requires Sound(d) && Lookup(d.mapped, f.cid).None? && f.cid in d.levels && d.levels[f.cid].entry != d.levels[f.cid].stop && intended > 0.0
    ensures var pid := NewPid(d);
      && pid !in d.positions.snapshots
      && BookEntry(d, f, intended) == BookInto(dm, pid, f) && Follows(d, dm) && LedgerFree(d.log, dm.log) && Pending(dm, pid, f)
      && dm.positions.snapshots == d.positions.snapshots[pid := Unfilled(Opens(f, intended, d.levels[f.cid]))]
      && dm.ledger == d.ledger && dm.mapped == d.mapped + [Mapping(f.cid, pid)]
  {
    var pid := NewPid(d);
    var dc := Create(d, f, intended);
    dm := MapOrder(dc, f.cid, pid);
    CreationFills(d, f, intended);
    NewIsUntouched(d, pid);
    assert Creates(d, f, intended);
    CreationBooks(d, f, intended);
    hide Sound, LogSound, BookEntry, BookInto, P.CreatePosition, PR.Good, NewPid, Opens, Creates, Create, P.ProcessedOf;
    FollowsOn(d, dc, dm);
    AssignedNew(d.mapped, Mapping(f.cid, pid));
    CreatedFree(d, dc, dm);
    PendingWhenNew(dm, pid, f);
  }

  function Unfilled(terms: PositionTerms): P.Snapshot {
    P.Snapshot(PS.New, terms, 0.0, 0.0, None, 0.0, 0.0, 0.0, 0.0)
  }

  lemma PendingWhenNew(d: Desk, pid: string, f: Fill)
    requires pid in d.positions.snapshots && d.positions.snapshots[pid].state == PS.New && P.ProcessedOf(d.positions, pid) == {}
    ensures Pending(d, pid, f)
  {
  }

  lemma CreationFills(d: Desk, f: Fill, intended: real)
    requires Sound(d) && f.cid in d.levels && d.levels[f.cid].entry != d.levels[f.cid].stop && intended > 0.0
    ensures var pid, dc := NewPid(d), Create(d, f, intended);
      && pid !in d.positions.snapshots
      && dc.positions.snapshots == d.positions.snapshots[pid := Unfilled(Opens(f, intended, d.levels[f.cid]))]
      && P.ProcessedOf(dc.positions, pid) == P.ProcessedOf(d.positions, pid)
      && dc.ledger == d.ledger && dc.mapped == d.mapped
  {
    PositionWorldIsGood(d);
    TermsAreOpens(f, intended, d.levels[f.cid]);
    PL.CreateBooks(PositionWorld(d), TermsFor(f, intended, d.levels[f.cid]));
    hide Sound, LogSound, PR.Good, TermsFor, Opens;
  }

  lemma TermsAreOpens(f: Fill, intended: real, l: Levels)
    requires l.entry != l.stop
    ensures TermsFor(f, intended, l) == Opens(f, intended, l) && Opens(f, intended, l).stopD > 0.0 && Opens(f, intended, l).intended == intended
  {
  }

  lemma CreatedFree(d: Desk, d1: Desk, d2: Desk)
    requires OneStep(d, d1) && OneStep(d1, d2) && |d1.log| == |d.log| + 1 && |d2.log| == |d.log| + 2
    requires !d1.log[|d.log|].payload.Portfolio? && !d2.log[|d1.log|].payload.Portfolio?
    ensures LedgerFree(d.log, d2.log)
  {
    assert d2.log[|d.log|] == d1.log[|d.log|];
  }

  lemma AssignedNew(mapped: seq<Mapping>, m: Mapping)
    requires Lookup(mapped, m.cid).None?
    ensures Assigned(mapped, m) == mapped + [m]
  {
  }

  lemma NewIsUntouched(d: Desk, pid: string)
    requires Sound(d) && pid !in d.positions.snapshots
    ensures P.ProcessedOf(d.positions, pid) == {}
  {
    PH.HistoryIsStarted(d.pm, d.log, pid);
  }

  /**
   The first fill of an order whose levels are on record and differ.  A position is created
   under the next id, on the fill's symbol and side, with the order's quantity, the
   recorded stop, the distance between the levels as its unit and targets one and two units
   beyond the entry; the order is mapped to it, last; and the fill is booked into it.
   */
  lemma FirstFillBooks(d: Desk, f: Fill, intended: real) returns (m: real, s': P.Snapshot)
    requires Sound(d) && LedgerProper(d.log)
    requires Lookup(d.mapped, f.cid).None? && f.cid in d.levels && d.levels[f.cid].entry != d.levels[f.cid].stop && intended > 0.0
    requires Unbooked(d.log, NewPid(d), f)
    ensures NewPid(d) == "pm:" + d.pm + ":" + (Decimal(d.positions.nextSeq) + ":" + "position") && NewPid(d) !in d.positions.snapshots
    ensures var (d', notes) := BookEntry(d, f, intended);
      && Entered(d, NewPid(d), Unfilled(Opens(f, intended, d.levels[f.cid])), f, m, s', d', notes)
      && d'.mapped == d.mapped + [Mapping(f.cid, NewPid(d))]
  {
    PidIs(d);
    hide Sound, LedgerProper, LedgerFree, BookEntry, BookInto, TookMargin, PL.EntersWith, Unbooked, NewPid, Opens, Pending, OrderFree, LogSound, Lookup;
    var pid := NewPid(d);
    var dm := CreationIs(d, f, intended);
    LedgerPassesOver(d.log, dm.log);
    UnbookedOn(d.log, dm.log, pid, f);
    m, s' := IntoBooks(dm, pid, f);
    SnapshotsTwice(d.positions.snapshots, pid, dm.positions.snapshots[pid], s');
  }

  lemma PidIs(d: Desk)
    ensures NewPid(d) == "pm:" + d.pm + ":" + (Decimal(d.positions.nextSeq) + ":" + "position")
  {
  }

  lemma SnapshotsTwice(m: map<string, P.Snapshot>, pid: string, first: P.Snapshot, second: P.Snapshot)
    ensures m[pid := first][pid := second] == m[pid := second]
  {
  }

  /** Without levels, with levels that coincide, or without a quantity there is no position, and a note says why. */
  lemma FirstFillRefused(d: Desk, f: Fill, intended: real)
    requires Lookup(d.mapped, f.cid).None?
    ensures f.cid !in d.levels ==> BookEntry(d, f, intended) == (d, [Note(f.id, NoLevels)])
    ensures f.cid in d.levels && d.levels[f.cid].entry == d.levels[f.cid].stop ==> BookEntry(d, f, intended) == (d, [Note(f.id, DegenerateStop)])
    ensures f.cid in d.levels && d.levels[f.cid].entry != d.levels[f.cid].stop && intended <= 0.0 ==>
              BookEntry(d, f, intended) == (d, [Note(f.id, Raised)])
  {
    assert WithPositions(d, PositionWorld(d)) == d;
  }

  // ---- exit fills ----

  /** An exit fill goes to the position of its order; without one, to the first it could be closing, and the order is mapped to it. */
  lemma AttributionBooks(d: Desk, f: Fill)
    requires Sound(d)
    ensures match Lookup(d.mapped, f.cid)
      case Some(pid) => BookExit(d, f) == CloseInto(d, pid, f)
      case None =>
        match FindOpen(d.positions, d.mapped, f.symbol, f.side)
        case None => BookExit(d, f) == (d, [Note(f.id, NoMatch)])
        case Some(pid) =>
          var dm := MapOrder(d, f.cid, pid);
          && BookExit(d, f) == CloseInto(dm, pid, f) && Sound(dm)
          && dm.mapped == d.mapped + [Mapping(f.cid, pid)] && dm.positions == d.positions && dm.ledger == d.ledger
          && dm.log == d.log + [Event(NextId(d.log), Some(ForAccounting(MappedKey(f.cid))), Accounting(OrderMapped(f.cid, pid)))]
          && dm.closed == d.closed && dm.counted == d.counted
  {
    var target := FindOpen(d.positions, d.mapped, f.symbol, f.side);
    if Lookup(d.mapped, f.cid).None? && target.Some? {
      MapSteps(d, f.cid, target.value);
      AssignedNew(d.mapped, Mapping(f.cid, target.value));
      MappedKeyed(d.log, f.cid);
    }
    hide CloseInto, FindOpen, Sound, LogSound;
  }

  /** The quantity counted as closed once this fill is: each fill counts once. */
  function CountedWith(d: Desk, pid: string, f: Fill): real {
    At(d.closed, pid) + (if f.id in d.counted then 0.0 else f.quantity)
  }

  predicate Counts(d: Desk, pid: string, f: Fill, d': Desk) {
    At(d'.closed, pid) == CountedWith(d, pid, f) && d'.counted == d.counted + {f.id}
  }

  /** The ledger with a profit booked. */
  function WithProfit(m: L.Memory, profit: real): L.Memory {
    m.(cash := m.cash + profit, realized := m.realized + profit)
  }

  /** The position's margin back in cash. */
  ghost predicate Freed(before: L.Memory, after: L.Memory, pid: string) {
    && after.cash == before.cash + At(before.usedBy, pid) + At(before.reservedBy, pid)
    && after.used == before.used - At(before.usedBy, pid) && after.reserved == before.reserved - At(before.reservedBy, pid)
    && L.HoldsNothing(after, pid)
    && (forall other :: other != pid ==> At(after.usedBy, other) == At(before.usedBy, other))
    && (forall other :: other != pid ==> At(after.reservedBy, other) == At(before.reservedBy, other))
    && after.realized == before.realized && after.fees == before.fees && after.funding == before.funding
    && after.deposits == before.deposits && after.withdrawals == before.withdrawals && after.released == before.released + {pid}
  }

  lemma TrancheBooks(d: Desk, pid: string, f: Fill)
    requires Sound(d) && pid in d.positions.snapshots && d.positions.snapshots[pid].avg.Some?
    requires !HasKey(d.log, ForPortfolio(RealizedKey(pid, f.id)))
    ensures var s, x := d.positions.snapshots[pid], Tranche(d, pid, f);
      && Follows(d, x) && x.positions == d.positions && x.mapped == d.mapped && Counts(d, pid, f, x)
      && x.ledger == WithProfit(d.ledger, Earned(s.terms.side, s.avg.value, f))
  {
    var s := d.positions.snapshots[pid];
    TrancheSteps(d, pid, f);
    RealizedIsEarned(s.terms.side, s.avg.value, f);
    hide Realized, Earned, Sound, LogSound;
  }

  /**
   An exit fill that does not complete its position's close: its profit is booked at the
   position's average price and it is counted, and nothing else happens; it is noted while
   the position is still waiting.
   */
  lemma PartialBooks(d: Desk, pid: string, f: Fill)
    requires Sound(d) && pid in d.positions.snapshots && d.positions.snapshots[pid].avg.Some?
    requires !HasKey(d.log, ForPortfolio(RealizedKey(pid, f.id)))
    requires var s := d.positions.snapshots[pid]; s.state in {PS.Closed, PS.Archived} || CountedWith(d, pid, f) < s.filled
    ensures var s, (d', notes) := d.positions.snapshots[pid], CloseInto(d, pid, f);
      && d'.positions == d.positions && d'.mapped == d.mapped && Counts(d, pid, f, d')
      && d'.ledger == WithProfit(d.ledger, Earned(s.terms.side, s.avg.value, f))
      && notes == if s.state in {PS.Closed, PS.Archived} then [] else [Note(f.id, PartialClose)]
  {
    TrancheBooks(d, pid, f);
    hide BookPnl, Finish, Earned, Sound, LogSound, Follows, WithProfit;
    assert Tranche(d, pid, f) == Count(BookPnl(d, pid, d.positions.snapshots[pid], f), pid, f);
    hide Count;
  }

  lemma CloseWrites(x: Desk, pid: string, f: Fill) returns (leg: Leg, gross: real)
    requires Sound(x) && Closable(x, pid, f)
    ensures var s := x.positions.snapshots[pid];
            var s' := PL.LessBy(s, PS.Closed, leg);
      && s.avg.Some? && PL.Fair(s, f, leg, gross) && leg.reason == "reduce_only_fill"
      && Closed(x, pid, f).positions.snapshots == x.positions.snapshots[pid := s'] && Closed(x, pid, f).ledger == x.ledger
  {
    CloseIsEdge(x, pid, f);
    ClosePersists(x, pid, f);
    PositionWorldIsGood(x);
    WorldOf(x);
    ClosableParts(x, pid, f);
    hide *;
    leg, gross := PL.ExitBooks(PositionWorld(x), pid, f, PS.Close, Reason, PS.Closed);
    WithPositionsOf(x, P.RecordExit(PositionWorld(x), pid, f, PS.Close, Reason).0);
    ClosedIs(x, pid, f);
    CloseReason(x.positions.snapshots[pid].state);
  }

  lemma ClosedIs(x: Desk, pid: string, f: Fill)
    ensures Closed(x, pid, f) == WithPositions(x, P.RecordExit(PositionWorld(x), pid, f, PS.Close, Reason).0)
  {
  }

  lemma CloseReason(current: PS.State)
    ensures PL.ReasonOf(PS.Close, current, Reason) == "reduce_only_fill"
  {
  }

  lemma CloseIsEdge(x: Desk, pid: string, f: Fill)
    requires Closable(x, pid, f)
    ensures var s := x.positions.snapshots[pid];
      (s.state, PS.Close, PS.Closed) in PS.EDGES && s.avg.Some? && s.avg.value > 0.0 && f.id !in P.ProcessedOf(x.positions, pid)
  {
    PS.VerdictsAre(x.positions.snapshots[pid].state, PS.Close);
    CloseLeadsToClosed(x.positions.snapshots[pid].state);
    hide PS.EDGES;
  }

  lemma CloseLeadsToClosed(s: PS.State)
    ensures PS.Next(s, PS.Close).Some? ==> PS.Next(s, PS.Close) == Some(PS.Closed)
  {
  }

  lemma ReleaseBooks(d: Desk, pid: string)
    requires Sound(d) && LedgerProper(d.log)
    ensures var d' := Ask(d, L.Release(pid, "close:" + pid)).0;
      && d'.positions == d.positions && d'.mapped == d.mapped && d'.closed == d.closed && d'.counted == d.counted
      && if pid in d.ledger.released then d'.ledger == d.ledger else Freed(d.ledger, d'.ledger, pid)
  {
    var request := "close:" + pid;
    ProperIsGood(d.log);
    AskSteps(d, L.Release(pid, request));
    if HasKey(d.log, ForPortfolio(ReleaseKey(pid, request))) {
      L.ReleaseIsOnRecord(d.log, pid, request);
    }
    FirstRelease(d, pid, request);
    ReleasedFrees(d.ledger, pid);
    hide L.Balanced, LogSound, LedgerProper, Sound, Ask, Freed, HasKey, L.Apply;
  }

  lemma FirstRelease(d: Desk, pid: string, request: string)
    ensures pid in d.ledger.released ==> Ask(d, L.Release(pid, request)).0.ledger == d.ledger
    ensures pid !in d.ledger.released && !HasKey(d.log, ForPortfolio(ReleaseKey(pid, request))) ==>
      Ask(d, L.Release(pid, request)).0.ledger == L.Apply(d.ledger, Released(pid))
    ensures Ask(d, L.Release(pid, request)).0.closed == d.closed && Ask(d, L.Release(pid, request)).0.counted == d.counted
  {
  }

  lemma ReleasedFrees(m: L.Memory, pid: string)
    ensures Freed(m, L.Apply(m, Released(pid)), pid)
  {
  }

  /**
   The exit fill that completes a close.  Its profit is booked at the average price; the
   position is closed by one fair leg for this fill, under its own reason; and then the
   position's margin is back in cash, unless it was released before.
   */
  lemma CompletionBooks(d: Desk, pid: string, f: Fill) returns (leg: Leg, gross: real)
    requires Sound(d) && LedgerProper(d.log) && Closable(d, pid, f)
    requires !HasKey(d.log, ForPortfolio(RealizedKey(pid, f.id)))
    requires CountedWith(d, pid, f) >= d.positions.snapshots[pid].filled
    ensures var s := d.positions.snapshots[pid];
            var s' := PL.LessBy(s, PS.Closed, leg);
            var (d', notes) := CloseInto(d, pid, f);
            var earned := WithProfit(d.ledger, Earned(s.terms.side, s.avg.value, f));
      && notes == [] && d'.mapped == d.mapped && Counts(d, pid, f, d')
      && PL.Fair(s, f, leg, gross) && leg.reason == "reduce_only_fill"
      && d'.positions.snapshots == d.positions.snapshots[pid := s']
      && if pid in d.ledger.released then d'.ledger == earned else Freed(earned, d'.ledger, pid)
  {
    var x := Tranche(d, pid, f);
    var y := Closed(x, pid, f);
    ClosableParts(d, pid, f);
    hide *;
    TrancheBooks(d, pid, f);
    CompletionSteps(d, pid, f);
    leg, gross := CloseWrites(x, pid, f);
    ReleaseBooks(y, pid);
    CountsLike(d, pid, f, x, Ask(y, L.Release(pid, "close:" + pid)).0);
  }

  lemma ClosableParts(d: Desk, pid: string, f: Fill)
    requires Closable(d, pid, f)
    ensures pid in d.positions.snapshots && d.positions.snapshots[pid].avg.Some?
  {
  }

  /** The booking as its steps: the tranche, the close, the release. */
  lemma CompletionSteps(d: Desk, pid: string, f: Fill)
    requires Sound(d) && LedgerProper(d.log) && Closable(d, pid, f) && pid in d.positions.snapshots
    requires Counts(d, pid, f, Tranche(d, pid, f)) && CountedWith(d, pid, f) >= d.positions.snapshots[pid].filled
    ensures var x := Tranche(d, pid, f);
            var y := Closed(x, pid, f);
      && Sound(x) && Closable(x, pid, f) && Sound(y) && LedgerProper(y.log)
      && y.mapped == x.mapped && y.closed == x.closed && y.counted == x.counted
      && CloseInto(d, pid, f) == (Ask(y, L.Release(pid, "close:" + pid)).0, [])
  {
    var x := Tranche(d, pid, f);
    TrancheSteps(d, pid, f);
    TrancheKeepsLedger(d, pid, f);
    CompletesHere(d, pid, f);
    CompletesByFinish(d, pid, f);
    hide CloseInto, Tranche, Completes, Counts, CountedWith, LedgerProper, LogSound;
    FinishSteps(x, pid, f);
    ClosePersists(x, pid, f);
    OneOther(x, Closed(x, pid, f));
    FinishIs(x, pid, f);
  }

  lemma CountsLike(d: Desk, pid: string, f: Fill, x: Desk, d': Desk)
    requires Counts(d, pid, f, x) && d'.closed == x.closed && d'.counted == x.counted
    ensures Counts(d, pid, f, d')
  {
  }

  lemma CompletesHere(d: Desk, pid: string, f: Fill)
    requires Closable(d, pid, f) && Tranche(d, pid, f).positions == d.positions && Counts(d, pid, f, Tranche(d, pid, f))
    requires CountedWith(d, pid, f) >= d.positions.snapshots[pid].filled
    ensures Completes(d, pid, f) && Closable(Tranche(d, pid, f), pid, f)
  {
  }

  lemma FinishIs(x: Desk, pid: string, f: Fill)
    requires Closable(x, pid, f) && P.RecordExit(PositionWorld(x), pid, f, PS.Close, Reason).1.Snap?
    ensures Finish(x, pid, f) == (Ask(Closed(x, pid, f), L.Release(pid, "close:" + pid)).0, [])
  {
  }

  // ---- one fill of the venue ----

  /**
   One fill of the pass.  An order nobody knows is noted as such, any other refusal of the
   order ledger as raised, and neither books anything; otherwise the order says whether the
   fill closes or enters, and for which quantity.
   */
  lemma OneFillBooks(e: Engine, f: Fill)
    requires EngineSound(e)
    ensures var (e', notes) := BookOne(e, f);
      if f.cid !in e.orders.snapshots then e' == e && notes == [Note(f.id, OrderUnknown)]
      else match Reported(e, f).1
        case Raised(_) => e' == e && notes == [Note(f.id, Raised)]
        case Snap(order) =>
          && order.terms == e.orders.snapshots[f.cid].terms
          && (e'.desk, notes) == if order.terms.reduceOnly then BookExit(e.desk.(log := Reported(e, f).0.log), f)
                                 else BookEntry(e.desk.(log := Reported(e, f).0.log), f, order.terms.quantity)
        case Snaps(_) => false
  {
    ReportAppends(e, f);
    ReportSteps(e, f);
    if f.cid in e.orders.snapshots && Reported(e, f).1.Snap? {
      ReportKeepsTerms(e, f);
    }
    assert e.desk.(log := e.desk.log) == e.desk;
    hide BookExit, BookEntry, Sound, OR.Good;
  }

  lemma ReportKeepsTerms(e: Engine, f: Fill)
    requires f.cid in e.orders.snapshots && Reported(e, f).1.Snap?
    ensures Reported(e, f).1.snapshot.terms == e.orders.snapshots[f.cid].terms
  {
  }

  /** A pass books its fills one by one and in order, and so stand its notes; without an answer it does nothing but note it. */
  lemma {:induction false} PassInOrder(e: Engine, fills: seq<Fill>, more: seq<Fill>)
    ensures Sync(e, O.VenueDown) == (e, [FetchFailed]) && Sync(e, O.Answer([])) == (e, [])
    ensures forall f :: Sync(e, O.Answer([f])) == BookOne(e, f)
    ensures var (e1, notes) := Sync(e, O.Answer(fills));
            var (e2, rest) := Sync(e1, O.Answer(more));
      Sync(e, O.Answer(fills + more)) == (e2, notes + rest)
    decreases |more|
  {
    hide BookOne;
    forall f
      ensures Sync(e, O.Answer([f])) == BookOne(e, f)
    {
      OneIsAPass(e, f);
    }
    if more == [] {
      assert fills + more == fills;
      assert Sync(e, O.Answer(fills)).1 + [] == Sync(e, O.Answer(fills)).1;
    } else {
      var front, f := more[..|more| - 1], more[|more| - 1];
      PassInOrder(e, fills, front);
      assert (fills + more)[..|fills + more| - 1] == fills + front;
      var e1 := BookAll(e, fills).0;
      assert BookAll(e, fills).1 + (BookAll(e1, front).1 + BookOne(BookAll(e1, front).0, f).1)
          == BookAll(e, fills).1 + BookAll(e1, front).1 + BookOne(BookAll(e1, front).0, f).1;
    }
  }

  lemma OneIsAPass(e: Engine, f: Fill)
    ensures BookAll(e, [f]) == BookOne(e, f)
  {
    hide BookOne;
    var one: seq<Fill>, none: seq<Fill> := [f], [];
    assert one[..|one| - 1] == none;
    assert BookAll(e, none) == (e, []);
    assert [] + BookOne(e, f).1 == BookOne(e, f).1;
  }
}
