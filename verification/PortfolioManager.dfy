/** The portfolio manager object: one ledger, updated in place, rebuilt from the log. */
module PortfolioManager {
  import opened Wrappers
  import opened EventLog
  import opened Records
  import opened Sums
  import opened Portfolio

  class PortfolioManager {
    const store: SharedLog<Key, Payload>
    var cash: real
    var reserved: real
    var used: real
    var unrealized: real
    var realized: real
    var funding: real
    var fees: real
    var deposits: real
    var withdrawals: real
    var exposure: real
    var heat: real
    var openIds: set<string>
    var reservedBy: map<string, real>
    var usedBy: map<string, real>
    var released: set<string>
    var applied: set<nat>

    ghost function Ledger(): Memory
      reads this
    {
      Memory(cash, reserved, used, unrealized, realized, funding, fees, deposits, withdrawals, exposure, heat,
             openIds, reservedBy, usedBy, released)
    }

    ghost function State(): World
      reads this, store
    {
      World(Ledger(), store.events)
    }

    ghost predicate Valid()
      reads this, store
    {
      Sourced(store.events) && Caught(store.events, applied, (p: Payload) => p.Portfolio?)
    }

    /** The fields are the ledger the log folds to, and it balances. */
    ghost predicate Faithful()
      reads this, store
    {
      Good(State())
    }

    /** Rebuilds the ledger from the shared log. */
    constructor (store: SharedLog<Key, Payload>)
      requires Ordered(store.events) && Sourced(store.events)
      ensures this.store == store && Valid() && State() == World(Replay(store.events), store.events)
    {
      this.store := store;
      cash, reserved, used, unrealized, realized, funding := 0.0, 0.0, 0.0, 0.0, 0.0, 0.0;
      fees, deposits, withdrawals, exposure, heat := 0.0, 0.0, 0.0, 0.0, 0.0;
      openIds, reservedBy, usedBy, released, applied := {}, map[], map[], {}, {};
      new;
      var i := 0;
      while i < |store.events|
        invariant 0 <= i <= |store.events| && this.store == store
        invariant Replay(store.events[..i]) == Ledger()
        invariant Caught(store.events[..i], applied, (p: Payload) => p.Portfolio?)
      {
        var e := store.events[i];
        NextEvent(store.events, i);
        CaughtNext(store.events[..i], e, applied, (p: Payload) => p.Portfolio?);
        if e.payload.Portfolio? {
          ApplyEvent(e);
        }
        i := i + 1;
      }
      assert store.events[..i] == store.events;
    }

    /** Applies one persisted event, once. */
    method ApplyEvent(e: Entry)
      requires e.payload.Portfolio?
      modifies this
      ensures applied == old(applied) + {e.id}
      ensures Ledger() == if e.id in old(applied) then old(Ledger()) else Apply(old(Ledger()), e.payload.portfolio)
    {
      if e.id in applied { return; }
      applied := applied + {e.id};
      match e.payload.portfolio {
        case Reserved(pid, amount) => ReserveFor(pid, amount);
        case Allocated(pid, amount) => AllocateTo(pid, amount);
        case Released(pid) => ReleaseFrom(pid);
        case MarksUpdated(u, x, h) => unrealized, exposure, heat := u, x, h;
        case _ => MoveCash(e.payload.portfolio);
      }
    }

    method ReserveFor(pid: string, amount: real)
      modifies this`cash, this`reserved, this`reservedBy
      ensures Ledger() == Apply(old(Ledger()), Reserved(pid, amount))
    {
      cash := cash - amount;
      reserved := reserved + amount;
      reservedBy := reservedBy[pid := At(reservedBy, pid) + amount];
    }

    method UseMargin(amount: real)
      modifies this`reserved, this`used
      ensures Ledger() == var m := old(Ledger()); m.(reserved := m.reserved - amount, used := m.used + amount)
    {
      reserved := reserved - amount;
      used := used + amount;
    }

    method AllocateTo(pid: string, amount: real)
      modifies this`reserved, this`used, this`reservedBy, this`usedBy, this`openIds
      ensures Ledger() == Apply(old(Ledger()), Allocated(pid, amount))
    {
      UseMargin(amount);
      reservedBy := reservedBy[pid := At(reservedBy, pid) - amount];
      usedBy := usedBy[pid := At(usedBy, pid) + amount];
      openIds := openIds + {pid};
    }

    method ReturnMargin(held: real, taken: real)
      modifies this`cash, this`reserved, this`used
      ensures Ledger() == var m := old(Ledger());
                          m.(reserved := m.reserved - held, used := m.used - taken, cash := m.cash + (held + taken))
    {
      reserved := reserved - held;
      used := used - taken;
      cash := cash + (held + taken);
    }

    method ReleaseFrom(pid: string)
      modifies this`cash, this`reserved, this`used, this`reservedBy, this`usedBy, this`released, this`openIds
      ensures Ledger() == Apply(old(Ledger()), Released(pid))
    {
      ReturnMargin(At(reservedBy, pid), At(usedBy, pid));
      reservedBy := reservedBy - {pid};
      usedBy := usedBy - {pid};
      released := released + {pid};
      openIds := openIds - {pid};
    }

    /** The records that move cash against one cumulative total. */
    method MoveCash(r: PortfolioRecord)
      requires !r.Reserved? && !r.Allocated? && !r.Released? && !r.MarksUpdated?
      modifies this`cash, this`deposits, this`withdrawals, this`realized, this`funding, this`fees
      ensures Ledger() == Apply(old(Ledger()), r)
    {
      match r {
        case Deposited(amount) => cash, deposits := cash + amount, deposits + amount;
        case Withdrawn(amount) => cash, withdrawals := cash - amount, withdrawals + amount;
        case RealizedPnl(_, amount) => cash, realized := cash + amount, realized + amount;
        case FundingBooked(_, amount) => cash, funding := cash + amount, funding + amount;
        case FeeBooked(_, amount) => cash, fees := cash - amount, fees + amount;
      }
    }

    /** The funds a request lacks. */
    method Shortfall(q: Request) returns (error: Option<Error>)
      ensures error == FundsError(Ledger(), q)
    {
      match q {
        case Withdraw(amount, _) => return if amount > cash then Some(InsufficientFunds) else None;
        case Reserve(_, amount, _) => return if amount > cash then Some(InsufficientFunds) else None;
        case Allocate(pid, amount, _) => return if amount > At(reservedBy, pid) then Some(InsufficientMargin) else None;
        case _ => return None;
      }
    }

    /** One request, checked for its amount, for a duplicate, and for its funds, in this order. */
    method Handle(q: Request) returns (out: Outcome)
      requires Valid()
      modifies this, store
      ensures Valid() && (State(), out) == Portfolio.Handle(old(State()), q)
      ensures old(Faithful()) ==> Faithful()
    {
      hide Good, Apply, FundsError;
      FaithfulThrough(State(), q);
      if !AmountOk(q) { return Refused(BadAmount); }
      if q.Release? && q.pid in released { return Done; }
      var key := ForPortfolio(KeyOf(q));
      var cached := Find(store.events, key);
      if cached.Some? {
        ApplyEvent(cached.value);
        return Done;
      }
      var error := Shortfall(q);
      if error.Some? { return Refused(error.value); }
      var e := store.Append(Some(key), Payload.Portfolio(RecordOf(q)));
      ApplyEvent(e);
      return Done;
    }
  }

  lemma FaithfulThrough(w: World, q: Request)
    ensures Good(w) ==> Good(Portfolio.Handle(w, q).0)
  {
    if Good(w) {
      HandleKeeps(w, q);
    }
  }
}
