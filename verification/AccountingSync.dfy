/** The accounting object: one pass over the venue's fills drives the three managers. */
module AccountingSync {
  import opened Wrappers
  import opened EventLog
  import opened Records
  import opened Sums
  import opened Accounting
  import PS = PositionStates
  import O = Orders
  import P = Positions
  import L = Portfolio
  import OM = OrderManager
  import PM = PositionManager
  import LM = PortfolioManager

  /** Nothing but records of one kind was added. */
  ghost predicate Wrote(log: Log, longer: Log, kind: Payload -> bool) {
    && log <= longer && NextId(log) <= NextId(longer)
    && forall i :: |log| <= i < |longer| ==> kind(longer[i].payload)
  }

  lemma AppendedWrote(log: Log, key: Option<Key>, p: Payload, kind: Payload -> bool)
    requires kind(p)
    ensures Wrote(log, Appended(log, key, p), kind)
  {
  }

  lemma WroteOn(a: Log, b: Log, c: Log, kind: Payload -> bool)
    requires Wrote(a, b, kind) && Wrote(b, c, kind)
    ensures Wrote(a, c, kind)
  {
  }

  /** Records of another kind leave a component caught up. */
  lemma CaughtStays(log: Log, longer: Log, applied: set<nat>, mine: Payload -> bool, kind: Payload -> bool)
    requires Caught(log, applied, mine) && Wrote(log, longer, kind) && forall p :: kind(p) ==> !mine(p)
    ensures Caught(longer, applied, mine)
  {
    forall e | e in longer && mine(e.payload)
      ensures e.id in applied
    {
      var i :| 0 <= i < |longer| && longer[i] == e;
      assert i < |log| && log[i] == e;
    }
  }

  lemma ReportWrote(w: O.World, cid: string, f: Fill)
    ensures Wrote(w.log, O.ReportFill(w, cid, f).0.log, (p: Payload) => p.Order?)
  {
  }

  lemma PersistWrote(w: P.World, r: PositionRecord)
    ensures Wrote(w.log, P.Persist(w, r).log, (p: Payload) => p.Position?)
  {
  }

  lemma CreateWrote(w: P.World, terms: PositionTerms)
    ensures Wrote(w.log, P.CreatePosition(w, terms).0.log, (p: Payload) => p.Position?)
  {
  }

  lemma EntryWrote(w: P.World, pid: string, f: Fill)
    ensures Wrote(w.log, P.RecordEntryFill(w, pid, f).0.log, (p: Payload) => p.Position?)
  {
    if pid in w.mem.snapshots && f.id !in P.ProcessedOf(w.mem, pid) && PS.Entering(w.mem.snapshots[pid].state) {
      var r := FirstTouch(pid, f.id, f.price);
      var w1 := if w.mem.snapshots[pid].state == PS.New then P.Persist(w, r) else w;
      PersistWrote(w, r);
      if pid in w1.mem.snapshots {
        ClassifyWrote(w1, pid, w.mem.snapshots[pid].filled, f);
        WroteOn(w.log, w1.log, P.RecordEntryFill(w, pid, f).0.log, (p: Payload) => p.Position?);
      }
    }
  }

  lemma ClassifyWrote(w: P.World, pid: string, filledBefore: real, f: Fill)
    requires pid in w.mem.snapshots
    ensures Wrote(w.log, P.ClassifyFill(w, pid, filledBefore, f).0.log, (p: Payload) => p.Position?)
  {
  }

  lemma ExitWrote(w: P.World, pid: string, f: Fill, t: PS.Trigger, reason: Option<string>)
    ensures Wrote(w.log, P.RecordExit(w, pid, f, t, reason).0.log, (p: Payload) => p.Position?)
  {
  }

  lemma HandleWrote(w: L.World, q: L.Request)
    ensures Wrote(w.log, L.Handle(w, q).0.log, (p: Payload) => p.Portfolio?)
  {
  }

  class AccountingSync {
    const leverage: Leverage
    const store: SharedLog<Key, Payload>
    const orders: OM.OrderManager
    const positions: PM.PositionManager
    const portfolio: LM.PortfolioManager
    var levels: map<string, Levels>
    var mapped: seq<Mapping>
    var closed: map<string, real>
    var counted: set<string>

    ghost function Orders(): O.Memory
      reads orders
    {
      O.Memory(orders.snapshots, orders.processed, orders.nextSeq)
    }

    ghost function Desk(): Accounting.Desk
      reads this, store, positions, portfolio
    {
      Accounting.Desk(positions.pm, leverage, store.events,
           P.Memory(positions.snapshots, positions.closedLegs, positions.processed, positions.nextSeq),
           portfolio.Ledger(), levels, mapped, closed, counted)
    }

    ghost function State(): Engine
      reads this, store, orders, positions, portfolio
    {
      Engine(orders.om, Orders(), Desk())
    }

    ghost predicate Valid()
      reads this, store, orders, positions, portfolio
    {
      && orders.store == store && positions.store == store && portfolio.store == store
      && orders.Valid() && positions.Valid() && portfolio.Valid()
    }

    /** Rebuilds both maps from the shared log; the accumulators start empty. */
    constructor (leverage: Leverage, store: SharedLog<Key, Payload>,
                 orders: OM.OrderManager, positions: PM.PositionManager, portfolio: LM.PortfolioManager)
      requires orders.store == store && positions.store == store && portfolio.store == store
      requires orders.Valid() && positions.Valid() && portfolio.Valid()
      ensures Valid() && this.leverage == leverage && this.store == store
      ensures this.orders == orders && this.positions == positions && this.portfolio == portfolio
      ensures levels == LevelsOn(store.events) && mapped == MappedOn(store.events) && closed == map[] && counted == {}
    {
      this.leverage, this.store, this.orders, this.positions, this.portfolio := leverage, store, orders, positions, portfolio;
      levels, mapped, closed, counted := map[], [], map[], {};
      new;
      var i := 0;
      while i < |store.events|
        invariant 0 <= i <= |store.events|
        invariant levels == LevelsOn(store.events[..i]) && mapped == MappedOn(store.events[..i])
        modifies this`levels, this`mapped
      {
        var p := store.events[i].payload;
        assert store.events[..i + 1][..i] == store.events[..i];
        if p.Accounting? {
          match p.accounting {
            case LevelsRecorded(cid, entry, stop) => levels := levels[cid := Levels(entry, stop)];
            case OrderMapped(cid, pid) => mapped := Assigned(mapped, Mapping(cid, pid));
          }
        }
        i := i + 1;
      }
      assert store.events[..i] == store.events;
    }

    // ---- calls to the managers, which leave the other managers caught up ----

    method ReportFill(f: Fill) returns (out: O.Outcome)
      requires Valid()
      modifies store, orders
      ensures Valid()
      ensures var (w, o) := O.ReportFill(OrderWorld(old(State())), f.cid, f);
        && out == o && State() == Engine(w.om, w.mem, old(Desk()).(log := w.log))
    {
      ghost var w := O.World(orders.om, Orders(), store.events, orders.sent);
      out := orders.TakeFill(f.cid, f);
      ReportWrote(w, f.cid, f);
      CaughtStays(w.log, store.events, positions.applied, (p: Payload) => p.Position?, (p: Payload) => p.Order?);
      CaughtStays(w.log, store.events, portfolio.applied, (p: Payload) => p.Portfolio?, (p: Payload) => p.Order?);
      ReportIgnoresSent(w, f.cid, f);
    }

    method Request(q: L.Request) returns (out: L.Outcome)
      requires Valid()
      modifies store, portfolio
      ensures Valid() && Orders() == old(Orders())
      ensures (Desk(), out) == Ask(old(Desk()), q)
    {
      ghost var w := L.World(portfolio.Ledger(), store.events);
      out := portfolio.Handle(q);
      HandleWrote(w, q);
      CaughtStays(w.log, store.events, orders.applied, (p: Payload) => p.Order?, (p: Payload) => p.Portfolio?);
      CaughtStays(w.log, store.events, positions.applied, (p: Payload) => p.Position?, (p: Payload) => p.Portfolio?);
    }

    method Create(terms: PositionTerms) returns (out: P.Outcome)
      requires Valid()
      modifies store, positions
      ensures Valid() && Orders() == old(Orders())
      ensures var (w, o) := P.CreatePosition(PositionWorld(old(Desk())), terms);
              out == o && Desk() == WithPositions(old(Desk()), w)
    {
      ghost var w := PositionWorld(Desk());
      out := positions.Create(terms);
      CreateWrote(w, terms);
      PositionsWrote(w.log);
    }

    method TakeEntry(pid: string, f: Fill) returns (out: P.Outcome)
      requires Valid()
      modifies store, positions
      ensures Valid() && Orders() == old(Orders())
      ensures var (w, o) := P.RecordEntryFill(PositionWorld(old(Desk())), pid, f);
              out == o && Desk() == WithPositions(old(Desk()), w)
    {
      ghost var w := PositionWorld(Desk());
      out := positions.TakeEntryFill(pid, f);
      EntryWrote(w, pid, f);
      PositionsWrote(w.log);
    }

    method TakeClose(pid: string, f: Fill) returns (out: P.Outcome)
      requires Valid()
      modifies store, positions
      ensures Valid() && Orders() == old(Orders())
      ensures var (w, o) := P.RecordExit(PositionWorld(old(Desk())), pid, f, PS.Close, Some("reduce_only_fill"));
              out == o && Desk() == WithPositions(old(Desk()), w)
    {
      ghost var w := PositionWorld(Desk());
      out := positions.TakeExit(pid, f, PS.Close, Some("reduce_only_fill"));
      ExitWrote(w, pid, f, PS.Close, Some("reduce_only_fill"));
      PositionsWrote(w.log);
    }

    /** After position records, orders and portfolio are still caught up. */
    lemma PositionsWrote(before: Log)
      requires orders.store == store && positions.store == store && portfolio.store == store && positions.Valid()
      requires Caught(before, orders.applied, (p: Payload) => p.Order?)
      requires Caught(before, portfolio.applied, (p: Payload) => p.Portfolio?)
      requires Wrote(before, store.events, (p: Payload) => p.Position?)
      ensures Valid()
    {
      CaughtStays(before, store.events, orders.applied, (p: Payload) => p.Order?, (p: Payload) => p.Position?);
      CaughtStays(before, store.events, portfolio.applied, (p: Payload) => p.Portfolio?, (p: Payload) => p.Position?);
    }

    method Append(key: AccountingKey, r: AccountingRecord)
      requires Valid()
      modifies store
      ensures Valid() && Orders() == old(Orders()) && Desk() == Own(old(Desk()), key, r)
    {
      ghost var before := store.events;
      var e := store.Append(Some(ForAccounting(key)), Payload.Accounting(r));
      AppendedWrote(before, Some(ForAccounting(key)), Payload.Accounting(r), (p: Payload) => p.Accounting?);
      CaughtStays(before, store.events, orders.applied, (p: Payload) => p.Order?, (p: Payload) => p.Accounting?);
      CaughtStays(before, store.events, positions.applied, (p: Payload) => p.Position?, (p: Payload) => p.Accounting?);
      CaughtStays(before, store.events, portfolio.applied, (p: Payload) => p.Portfolio?, (p: Payload) => p.Accounting?);
    }

    method Map(cid: string, pid: string)
      requires Valid()
      modifies this`mapped, store
      ensures Valid() && Orders() == old(Orders()) && Desk() == MapOrder(old(Desk()), cid, pid)
    {
      Append(MappedKey(cid), OrderMapped(cid, pid));
      mapped := Assigned(mapped, Mapping(cid, pid));
    }
  
    // ---- levels ----

    method RecordExecutionLevels(executions: seq<Execution>)
      requires Valid()
      modifies this`levels, store
      ensures Valid() && Orders() == old(Orders()) && Desk() == RecordAllLevels(old(Desk()), executions)
    {
      var i := 0;
      while i < |executions|
        invariant 0 <= i <= |executions| && Valid() && Orders() == old(Orders())
        invariant Desk() == RecordAllLevels(old(Desk()), executions[..i])
      {
        var x := executions[i];
        assert executions[..i + 1][..i] == executions[..i];
        if x.levels.Some? && x.cid !in levels {
          Append(LevelsKey(x.cid), LevelsRecorded(x.cid, x.levels.value.entry, x.levels.value.stop));
          levels := levels[x.cid := x.levels.value];
        }
        i := i + 1;
      }
      assert executions[..i] == executions;
    }

    // ---- entry fills ----

    method TakeMargin(pid: string, f: Fill) returns (out: L.Outcome)
      requires Valid()
      modifies store, portfolio
      ensures Valid() && Orders() == old(Orders()) && (Desk(), out) == Accounting.TakeMargin(old(Desk()), pid, f)
    {
      var margin := f.quantity * f.price / leverage;
      ghost var d := Desk();
      assert margin == Margin(d, f);
      out := Request(L.Reserve(pid, margin, f.id));
      assert (Desk(), out) == Ask(d, L.Reserve(pid, Margin(d, f), f.id));
      if out.Done? {
        out := Request(L.Allocate(pid, margin, f.id));
      }
    }

    method BookMargin(pid: string, f: Fill) returns (notes: seq<Note>)
      requires Valid()
      modifies store, portfolio
      ensures Valid() && Orders() == old(Orders()) && (Desk(), notes) == Accounting.BookMargin(old(Desk()), pid, f)
    {
      var out := TakeMargin(pid, f);
      if out == L.Refused(L.BadAmount) { return [Note(f.id, Raised)]; }
      if f.fee > 0.0 {
        var charged := Request(L.BookFee(pid, f.id, f.fee));
      }
      return if out.Done? then [] else [Note(f.id, MarginFailed)];
    }

    method BookInto(pid: string, f: Fill) returns (notes: seq<Note>)
      requires Valid()
      modifies store, positions, portfolio
      ensures Valid() && Orders() == old(Orders()) && (Desk(), notes) == Accounting.BookInto(old(Desk()), pid, f)
    {
      if pid !in positions.snapshots { return [Note(f.id, Raised)]; }
      var before := positions.snapshots[pid];
      var out := TakeEntry(pid, f);
      if out.Raised? { return [Note(f.id, Raised)]; }
      if Dead(out.snapshot.state) {
        return if out.snapshot.filled != before.filled then [Note(f.id, DeadPosition)] else [];
      }
      notes := BookMargin(pid, f);
    }

    method BookEntry(f: Fill, intended: real) returns (notes: seq<Note>)
      requires Valid()
      modifies this`mapped, store, positions, portfolio
      ensures Valid() && Orders() == old(Orders()) && (Desk(), notes) == Accounting.BookEntry(old(Desk()), f, intended)
    {
      var known := Lookup(mapped, f.cid);
      if known.None? {
        if f.cid !in levels { return [Note(f.id, NoLevels)]; }
        if Distance(levels[f.cid]) <= 0.0 { return [Note(f.id, DegenerateStop)]; }
        // The id the manager is about to mint for the position.
        var pid := P.MakeId(positions.pm, positions.nextSeq);
        var out := Create(TermsFor(f, intended, levels[f.cid]));
        if out.Raised? { return [Note(f.id, Raised)]; }
        Map(f.cid, pid);
        notes := BookInto(pid, f);
      } else {
        notes := BookInto(known.value, f);
      }
    }

    // ---- exit fills ----

    /** The first mapped position, in insertion order, that the fill could be closing. */
    method FindOpenPosition(symbol: string, closing: Side) returns (found: Option<string>)
      requires Valid()
      ensures found == FindOpen(Desk().positions, mapped, symbol, closing)
      ensures found.Some? ==> exists m :: m in mapped && m.pid == found.value && Matches(Desk().positions, m.pid, symbol, closing)
      ensures found.None? ==> forall m :: m in mapped ==> !Matches(Desk().positions, m.pid, symbol, closing)
    {
      var i := 0;
      while i < |mapped|
        invariant 0 <= i <= |mapped|
        invariant FindOpen(Desk().positions, mapped[..i], symbol, closing).None?
        invariant forall j :: 0 <= j < i ==> !Matches(Desk().positions, mapped[j].pid, symbol, closing)
      {
        var pid := mapped[i].pid;
        assert mapped[..i + 1][..i] == mapped[..i];
        if pid in positions.snapshots {
          var s := positions.snapshots[pid];
          if s.terms.symbol == symbol && s.terms.side == Opposite(closing) && !Dead(s.state) && s.remaining > 0.0 {
            FoundFirst(Desk().positions, mapped, symbol, closing, i);
            assert mapped[i] in mapped;
            return Some(pid);
          }
        }
        i := i + 1;
      }
      assert mapped[..i] == mapped;
      return None;
    }

    method BookPnl(pid: string, f: Fill)
      requires Valid() && pid in positions.snapshots
      modifies store, portfolio
      ensures Valid() && Orders() == old(Orders())
      ensures Desk() == Accounting.BookPnl(old(Desk()), pid, old(positions.snapshots)[pid], f)
    {
      var s := positions.snapshots[pid];
      if s.avg.Some? {
        var direction := if s.terms.side == Buy then 1.0 else -1.0;
        var realized := direction * (f.price - s.avg.value) * f.quantity - f.fee;
        assert realized == Realized(s.terms.side, s.avg.value, f);
        hide Realized;
        var booked := Request(L.BookPnl(pid, f.id, realized));
      }
    }

    method CountFill(pid: string, f: Fill)
      requires Valid()
      modifies this`closed, this`counted
      ensures Valid() && Desk() == Count(old(Desk()), pid, f)
    {
      if f.id !in counted {
        counted := counted + {f.id};
        closed := closed[pid := At(closed, pid) + f.quantity];
      }
    }

    method Finish(pid: string, f: Fill) returns (notes: seq<Note>)
      requires Valid()
      modifies store, positions, portfolio
      ensures Valid() && Orders() == old(Orders()) && (Desk(), notes) == Accounting.Finish(old(Desk()), pid, f)
    {
      var out := TakeClose(pid, f);
      if out.Raised? { return [Note(f.id, Raised)]; }
      var released := Request(L.Release(pid, "close:" + pid));
      return [];
    }

    method CloseInto(pid: string, f: Fill) returns (notes: seq<Note>)
      requires Valid()
      modifies this`closed, this`counted, store, positions, portfolio
      ensures Valid() && Orders() == old(Orders()) && (Desk(), notes) == Accounting.CloseInto(old(Desk()), pid, f)
    {
      if pid !in positions.snapshots { return [Note(f.id, Raised)]; }
      var s := positions.snapshots[pid];
      BookPnl(pid, f);
      CountFill(pid, f);
      if Dead(s.state) { return []; }
      if At(closed, pid) < s.filled { return [Note(f.id, PartialClose)]; }
      notes := Finish(pid, f);
    }

    method BookExit(f: Fill) returns (notes: seq<Note>)
      requires Valid()
      modifies this`mapped, this`closed, this`counted, store, positions, portfolio
      ensures Valid() && Orders() == old(Orders()) && (Desk(), notes) == Accounting.BookExit(old(Desk()), f)
    {
      var known := Lookup(mapped, f.cid);
      if known.None? {
        var found := FindOpenPosition(f.symbol, f.side);
        if found.None? { return [Note(f.id, NoMatch)]; }
        // Durable claim before any state change.
        Map(f.cid, found.value);
        notes := CloseInto(found.value, f);
      } else {
        notes := CloseInto(known.value, f);
      }
    }

    // ---- one pass ----

    method BookOne(f: Fill) returns (notes: seq<Note>)
      requires Valid()
      modifies this, store, orders, positions, portfolio
      ensures Valid() && (State(), notes) == Accounting.BookOne(old(State()), f)
    {
      var out := ReportFill(f);
      match out {
        case Raised(error) => return [Note(f.id, if error == O.NotFound then OrderUnknown else Raised)];
        case Snaps(_) => return [];
        case Snap(order) =>
          if order.terms.reduceOnly {
            notes := BookExit(f);
          } else {
            notes := BookEntry(f, order.terms.quantity);
          }
      }
    }

    /** Books every fill the venue lists; one bad fill never stops the rest. */
    method Sync(fetched: O.Reply<seq<Fill>>) returns (notes: seq<Note>)
      requires Valid()
      modifies this, store, orders, positions, portfolio
      ensures Valid() && (State(), notes) == Accounting.Sync(old(State()), fetched)
    {
      if fetched.VenueDown? { return [FetchFailed]; }
      var fills := fetched.value;
      notes := [];
      var i := 0;
      while i < |fills|
        invariant 0 <= i <= |fills| && Valid()
        invariant (State(), notes) == BookAll(old(State()), fills[..i])
      {
        assert fills[..i + 1][..i] == fills[..i];
        var more := BookOne(fills[i]);
        notes := notes + more;
        i := i + 1;
      }
      assert fills[..i] == fills;
    }
  }

  lemma {:induction false} FoundFirst(m: P.Memory, mapped: seq<Mapping>, symbol: string, closing: Side, i: nat)
    requires i < |mapped| && FindOpen(m, mapped[..i], symbol, closing).None? && Matches(m, mapped[i].pid, symbol, closing)
    ensures FindOpen(m, mapped, symbol, closing) == Some(mapped[i].pid)
    decreases |mapped|
  {
    var front := mapped[..|mapped| - 1];
    if i < |front| {
      assert front[..i] == mapped[..i];
      FoundFirst(m, front, symbol, closing, i);
    } else {
      assert front == mapped[..i];
    }
  }

  /** What was transmitted plays no part in a fill report. */
  lemma ReportIgnoresSent(w: O.World, cid: string, f: Fill)
    ensures O.ReportFill(w, cid, f).1 == O.ReportFill(w.(sent := []), cid, f).1
    ensures O.ReportFill(w.(sent := []), cid, f).0 == O.ReportFill(w, cid, f).0.(sent := [])
  {
  }
}
