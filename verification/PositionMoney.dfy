/**
 The money of one position, read off the log: what its entries and exits add up to, and what
 part of the ledger is its doing.
 */
module PositionMoney {
  import opened Wrappers
  import opened EventLog
  import opened Records
  import opened Accounting
  import opened FillTrail
  import opened Sums
  import P = Positions
  import PH = PositionHistory
  import L = Portfolio

  // ---- sums over fills ----

  function Total(fills: seq<Fill>, of: Fill -> real): real {
    if fills == [] then 0.0 else Total(fills[..|fills| - 1], of) + of(fills[|fills| - 1])
  }

  const OfQuantity: Fill -> real := (f: Fill) => f.quantity
  const OfNotional: Fill -> real := (f: Fill) => f.price * f.quantity
  const OfFee: Fill -> real := (f: Fill) => f.fee

  /** The fee the ledger books for an entry fill: a rebate is not booked. */
  const OfCharge: Fill -> real := (f: Fill) => if f.fee > 0.0 then f.fee else 0.0

  function OfProfit(side: Side, avg: real): Fill -> real {
    f => Earned(side, avg, f)
  }

  lemma TotalOfJoin(a: seq<Fill>, b: seq<Fill>, of: Fill -> real)
    requires |b| <= 1
    ensures Total(a + b, of) == Total(a, of) + (if b == [] then 0.0 else of(b[0]))
  {
    if b == [] {
      assert a + b == a;
    } else {
      assert (a + b)[..|a|] == a;
    }
  }

  /** Profit tranche by tranche is profit on the whole. */
  lemma {:induction false} ProfitTelescopes(fills: seq<Fill>, side: Side, avg: real)
    ensures side == Buy ==>
      Total(fills, OfProfit(side, avg)) == Total(fills, OfNotional) - avg * Total(fills, OfQuantity) - Total(fills, OfFee)
    ensures side == Sell ==>
      Total(fills, OfProfit(side, avg)) == avg * Total(fills, OfQuantity) - Total(fills, OfNotional) - Total(fills, OfFee)
  {
    if fills != [] {
      var front, f := fills[..|fills| - 1], fills[|fills| - 1];
      ProfitTelescopes(front, side, avg);
      CostOfMore(avg, Total(front, OfQuantity), f.quantity);
      TotalsOfMore(fills, side, avg);
      hide Total, OfProfit;
    }
  }

  lemma CostOfMore(avg: real, quantity: real, more: real)
    ensures avg * (quantity + more) == avg * quantity + avg * more
  {
  }

  lemma TotalsOfMore(fills: seq<Fill>, side: Side, avg: real)
    requires fills != []
    ensures var front, f := fills[..|fills| - 1], fills[|fills| - 1];
      && Total(fills, OfProfit(side, avg)) == Total(front, OfProfit(side, avg)) + Earned(side, avg, f)
      && Total(fills, OfNotional) == Total(front, OfNotional) + f.price * f.quantity
      && Total(fills, OfQuantity) == Total(front, OfQuantity) + f.quantity
      && Total(fills, OfFee) == Total(front, OfFee) + f.fee
  {
    hide Earned;
  }

  /** The venue's fills that are on the log under a key of this kind, each once, in the venue's order. */
  function On(log: Log, fills: seq<Fill>, key: string -> Key): seq<Fill> {
    if fills == [] then []
    else
      var f := fills[|fills| - 1];
      On(log, fills[..|fills| - 1], key) + (if HasKey(log, key(f.id)) then [f] else [])
  }

  ghost predicate OneToOne(key: string -> Key) {
    forall x, y :: key(x) == key(y) ==> x == y
  }

  lemma {:induction false} OnOther(log: Log, e: Entry, fills: seq<Fill>, key: string -> Key)
    requires forall f :: f in fills ==> e.key != Some(key(f.id))
    ensures On(log + [e], fills, key) == On(log, fills, key)
  {
    assert (log + [e])[..|log|] == log;
    if fills != [] {
      var f := fills[|fills| - 1];
      assert f in fills && forall g :: g in fills[..|fills| - 1] ==> g in fills;
      OnOther(log, e, fills[..|fills| - 1], key);
    }
  }

  /** A fill that comes on the log adds what it is worth. */
  lemma {:induction false} OnTaken(log: Log, e: Entry, fills: seq<Fill>, f: Fill, key: string -> Key, of: Fill -> real)
    requires Venue(fills) && f in fills && OneToOne(key) && e.key == Some(key(f.id)) && !HasKey(log, key(f.id))
    ensures Total(On(log + [e], fills, key), of) == Total(On(log, fills, key), of) + of(f)
  {
    assert (log + [e])[..|log|] == log;
    var front, last := fills[..|fills| - 1], fills[|fills| - 1];
    assert Venue(front);
    TotalOfJoin(On(log, front, key), if HasKey(log, key(last.id)) then [last] else [], of);
    TotalOfJoin(On(log + [e], front, key), if HasKey(log + [e], key(last.id)) then [last] else [], of);
    if f == last {
      forall g | g in front
        ensures e.key != Some(key(g.id))
      {
        var i :| 0 <= i < |front| && front[i] == g;
        assert fills[i].id != fills[|fills| - 1].id;
      }
      OnOther(log, e, front, key);
    } else {
      assert f in front;
      OnTaken(log, e, front, f, key, of);
      SameFill(fills, f, f);
      assert last.id != f.id by {
        var i :| 0 <= i < |front| && front[i] == f;
        assert fills[i].id != fills[|fills| - 1].id;
      }
    }
  }

  lemma KeysAreOneToOne(pid: string)
    ensures OneToOne(EntryOf(pid)) && OneToOne(RealizedOf(pid)) && OneToOne(FeeOf(pid))
  {
  }

  // ---- the part of the ledger that is one position's doing ----

  function RealizedIn(p: Payload, pid: string): real {
    if p.Portfolio? && p.portfolio.RealizedPnl? && p.portfolio.pid == pid then p.portfolio.amount else 0.0
  }

  function FeeIn(p: Payload, pid: string): real {
    if p.Portfolio? && p.portfolio.FeeBooked? && p.portfolio.reference == pid then p.portfolio.amount else 0.0
  }

  function FundingIn(p: Payload, pid: string): real {
    if p.Portfolio? && p.portfolio.FundingBooked? && p.portfolio.pid == pid then p.portfolio.amount else 0.0
  }

  function Sum(log: Log, pid: string, part: (Payload, string) -> real): real {
    if log == [] then 0.0 else Sum(log[..|log| - 1], pid, part) + part(log[|log| - 1].payload, pid)
  }

  function Profits(log: Log, pid: string): real {
    Sum(log, pid, RealizedIn)
  }

  function Charges(log: Log, pid: string): real {
    Sum(log, pid, FeeIn)
  }

  function Fundings(log: Log, pid: string): real {
    Sum(log, pid, FundingIn)
  }

  predicate Moves(p: Payload, pid: string) {
    p.Portfolio? && Whose(p.portfolio) == Some(pid)
  }

  /** The log as it were had the position never touched the ledger. */
  function Without(log: Log, pid: string): Log {
    if log == [] then []
    else
      var front, e := Without(log[..|log| - 1], pid), log[|log| - 1];
      if Moves(e.payload, pid) then front else front + [e]
  }

  function Held(m: L.Memory, pid: string): real {
    At(m.usedBy, pid) + At(m.reservedBy, pid)
  }

  ghost predicate SameElsewhere(a: map<string, real>, b: map<string, real>, pid: string) {
    forall other :: other != pid ==> At(a, other) == At(b, other)
  }

  lemma SameAfter(a: map<string, real>, b: map<string, real>, pid: string, k: string, more: real)
    requires SameElsewhere(a, b, pid) && k != pid
    ensures At(a, k) == At(b, k)
    ensures SameElsewhere(a[k := At(a, k) + more], b[k := At(b, k) + more], pid)
    ensures SameElsewhere(a - {k}, b - {k}, pid)
  {
    var a', b' := a[k := At(a, k) + more], b[k := At(b, k) + more];
    assert At(a, k) == At(b, k);
    forall other | other != pid
      ensures At(a', other) == At(b', other) && At(a - {k}, other) == At(b - {k}, other)
    {
      assert At(a, other) == At(b, other);
    }
    assert SameElsewhere(a', b', pid);
  }

  /** Two ledgers that differ by one position's profit, funding, charges and margin. */
  ghost predicate Apart(m: L.Memory, rest: L.Memory, pid: string, profit: real, funding: real, charges: real) {
    && m.cash == rest.cash + profit + funding - charges - Held(m, pid)
    && m.realized == rest.realized + profit && m.funding == rest.funding + funding && m.fees == rest.fees + charges
    && SameElsewhere(m.usedBy, rest.usedBy, pid) && SameElsewhere(m.reservedBy, rest.reservedBy, pid)
  }

  lemma OwnStep(m: L.Memory, rest: L.Memory, r: PortfolioRecord, pid: string, profit: real, funding: real, charges: real)
    requires Apart(m, rest, pid, profit, funding, charges) && Whose(r) == Some(pid)
    ensures var p := Portfolio(r);
            Apart(L.Apply(m, r), rest, pid, profit + RealizedIn(p, pid), funding + FundingIn(p, pid), charges + FeeIn(p, pid))
  {
  }

  lemma OtherStep(m: L.Memory, rest: L.Memory, r: PortfolioRecord, pid: string, profit: real, funding: real, charges: real)
    requires Apart(m, rest, pid, profit, funding, charges) && Whose(r) != Some(pid)
    ensures Apart(L.Apply(m, r), L.Apply(rest, r), pid, profit, funding, charges)
  {
    hide SameElsewhere;
    if Whose(r).Some? {
      var q, amount := Whose(r).value, if r.Reserved? || r.Allocated? then r.amount else 0.0;
      SameAfter(m.usedBy, rest.usedBy, pid, q, amount);
      SameAfter(m.reservedBy, rest.reservedBy, pid, q, amount);
      SameAfter(m.reservedBy, rest.reservedBy, pid, q, -amount);
    }
  }

  lemma EmptyIsApart(pid: string)
    ensures Apart(L.Initial, L.Initial, pid, 0.0, 0.0, 0.0)
  {
  }

  lemma NotItsDoing(p: Payload, pid: string)
    requires !Moves(p, pid)
    ensures RealizedIn(p, pid) == 0.0 && FeeIn(p, pid) == 0.0 && FundingIn(p, pid) == 0.0
  {
  }

  /**
   On every log: cash, realised profit, funding and fees are those of the log without this
   position's requests, plus the position's own profit and funding, less its charges, and
   less the margin it holds.
   */
  lemma {:induction false} LedgerByPosition(log: Log, pid: string)
    ensures Apart(L.Replay(log), L.Replay(Without(log, pid)), pid, Profits(log, pid), Fundings(log, pid), Charges(log, pid))
  {
    hide Apart, L.Apply, RealizedIn, FeeIn, FundingIn;
    if log == [] {
      EmptyIsApart(pid);
    } else {
      var front, e := log[..|log| - 1], log[|log| - 1];
      LedgerByPosition(front, pid);
      var rest := Without(front, pid);
      if Moves(e.payload, pid) {
        OwnStep(L.Replay(front), L.Replay(rest), e.payload.portfolio, pid, Profits(front, pid), Fundings(front, pid), Charges(front, pid));
      } else {
        assert (rest + [e])[..|rest|] == rest;
        NotItsDoing(e.payload, pid);
        if e.payload.Portfolio? {
          OtherStep(L.Replay(front), L.Replay(rest), e.payload.portfolio, pid, Profits(front, pid), Fundings(front, pid), Charges(front, pid));
        }
      }
    }
  }

  // ---- the entries ----

  function Entries(log: Log, fills: seq<Fill>, pid: string): seq<Fill> {
    On(log, fills, EntryOf(pid))
  }

  function Exits(log: Log, fills: seq<Fill>, pid: string): seq<Fill> {
    On(log, fills, RealizedOf(pid))
  }

  lemma EntryTaken(pm: string, front: Log, e: Entry, fills: seq<Fill>, who: set<string>, pid: string) returns (f: Fill)
    requires PH.Proper(pm, front + [e]) && Ordered(front + [e]) && Backed(front, e, fills, who) && PH.PartsIn(e.payload, pid) != []
    ensures f in fills && e.key == Some(EntryOf(pid)(f.id)) && !HasKey(front, EntryOf(pid)(f.id))
    ensures var part := PH.PartsIn(e.payload, pid)[0]; f.quantity == part.quantity && f.price == part.price
  {
    assert (front + [e])[..|front|] == front;
    f :| f in fills && EntersWith(front, e.payload.position, f);
  }

  lemma NoEntryTaken(pm: string, front: Log, e: Entry, pid: string, id: string)
    requires PH.Proper(pm, front + [e]) && PH.PartsIn(e.payload, pid) == []
    ensures e.key != Some(EntryOf(pid)(id))
  {
    assert (front + [e])[..|front|] == front;
  }

  lemma EntryStep(pm: string, front: Log, e: Entry, fills: seq<Fill>, who: set<string>, pid: string)
    requires PH.Proper(pm, front + [e]) && Ordered(front + [e]) && Backed(front, e, fills, who) && Venue(fills)
    ensures var parts := PH.PartsIn(e.payload, pid);
      && Total(Entries(front + [e], fills, pid), OfQuantity) == Total(Entries(front, fills, pid), OfQuantity) + PH.Quantity(parts)
      && Total(Entries(front + [e], fills, pid), OfNotional) == Total(Entries(front, fills, pid), OfNotional) + PH.Notional(parts)
  {
    OnePart(e.payload, pid);
    hide PH.Proper, Ordered, Backed, PH.PartsIn, HasKey, EntryOf, Total, On, Venue;
    KeysAreOneToOne(pid);
    if PH.PartsIn(e.payload, pid) != [] {
      var f := EntryTaken(pm, front, e, fills, who, pid);
      OnTaken(front, e, fills, f, EntryOf(pid), OfQuantity);
      OnTaken(front, e, fills, f, EntryOf(pid), OfNotional);
    } else {
      forall f | f in fills
        ensures e.key != Some(EntryOf(pid)(f.id))
      {
        NoEntryTaken(pm, front, e, pid, f.id);
      }
      OnOther(front, e, fills, EntryOf(pid));
    }
  }

  /** The position's entry parts on the log are the venue's fills. */
  lemma {:induction false} EntriesAddUp(pm: string, log: Log, fills: seq<Fill>, who: set<string>, pid: string)
    requires PH.Proper(pm, log) && Ordered(log) && Trail(log, fills, who) && Venue(fills)
    ensures Total(Entries(log, fills, pid), OfQuantity) == PH.Quantity(PH.EntryParts(log, pid))
    ensures Total(Entries(log, fills, pid), OfNotional) == PH.Notional(PH.EntryParts(log, pid))
  {
    if log == [] {
      NothingOn(fills, EntryOf(pid));
    } else {
      hide PH.ProperEntry, Backed, Venue, On, Total, PH.Quantity, PH.Notional, PH.PartsIn, HasKey;
      var front, e := log[..|log| - 1], log[|log| - 1];
      assert front + [e] == log;
      EntriesAddUp(pm, front, fills, who, pid);
      EntryStep(pm, front, e, fills, who, pid);
      OnePart(e.payload, pid);
      PartsAddUp(PH.EntryParts(front, pid), PH.PartsIn(e.payload, pid));
    }
  }

  lemma OnePart(p: Payload, pid: string)
    ensures |PH.PartsIn(p, pid)| <= 1
  {
  }

  lemma {:induction false} NothingOn(fills: seq<Fill>, key: string -> Key)
    ensures On([], fills, key) == []
  {
    if fills != [] {
      NothingOn(fills[..|fills| - 1], key);
    }
  }

  lemma PartsAddUp(parts: seq<PH.Part>, more: seq<PH.Part>)
    requires |more| <= 1
    ensures PH.Quantity(parts + more) == PH.Quantity(parts) + PH.Quantity(more)
    ensures PH.Notional(parts + more) == PH.Notional(parts) + PH.Notional(more)
  {
    if more == [] {
      assert parts + more == parts;
    } else {
      assert (parts + more)[..|parts|] == parts;
    }
  }

  // ---- the exits ----

  predicate IsProfit(p: Payload, pid: string) {
    p.Portfolio? && p.portfolio.RealizedPnl? && p.portfolio.pid == pid
  }

  predicate IsEntry(p: Payload, pid: string) {
    p.Position? && (p.position.FirstTouch? || p.position.EntryFill?) && p.position.pid == pid
  }

  /** The position was fully entered before its first closing tranche was booked. */
  predicate EnteredFirst(log: Log, pid: string) {
    forall i, j :: 0 <= i < j < |log| && IsProfit(log[i].payload, pid) ==> !IsEntry(log[j].payload, pid)
  }

  predicate AnyProfit(log: Log, pid: string) {
    exists i :: 0 <= i < |log| && IsProfit(log[i].payload, pid)
  }

  /** The profits booked so far are those of the exits on the log, at the position's average price. */
  ghost predicate ProfitsAre(log: Log, fills: seq<Fill>, pid: string) {
    if AnyProfit(log, pid) then
      && pid in Books(log).snapshots
      && var s := Books(log).snapshots[pid];
         s.avg.Some? && Profits(log, pid) == Total(Exits(log, fills, pid), OfProfit(s.terms.side, s.avg.value))
    else Profits(log, pid) == 0.0 && Exits(log, fills, pid) == []
  }

  lemma ProfitStep(front: Log, e: Entry, fills: seq<Fill>, who: set<string>, pid: string)
    requires Ordered(front + [e]) && Backed(front, e, fills, who) && Venue(fills) && pid in who
    requires ProfitsAre(front, fills, pid) && IsProfit(e.payload, pid)
    ensures ProfitsAre(front + [e], fills, pid)
  {
    var log := front + [e];
    assert log[..|front|] == front;
    assert IsProfit(log[|front|].payload, pid);
    KeysAreOneToOne(pid);
    var r := e.payload.portfolio;
    var f :| f in fills && e.key.value.portfolioKey == RealizedKey(pid, f.id) && RealizedBy(front, pid, r.amount, f);
    var s := Books(front).snapshots[pid];
    OnTaken(front, e, fills, f, RealizedOf(pid), OfProfit(s.terms.side, s.avg.value));
  }

  /** Nothing but an entry changes the side and the average of a position. */
  lemma AverageStays(pm: string, front: Log, e: Entry, pid: string)
    requires PH.Proper(pm, front + [e]) && PH.Proper(pm, front) && pid in Books(front).snapshots && !IsEntry(e.payload, pid)
    ensures pid in Books(front + [e]).snapshots
    ensures Books(front + [e]).snapshots[pid].avg == Books(front).snapshots[pid].avg
    ensures Books(front + [e]).snapshots[pid].terms == Books(front).snapshots[pid].terms
  {
    assert (front + [e])[..|front|] == front;
    if e.payload.Position? {
      var r := e.payload.position;
      if P.PidOf(r) != pid {
        PH.ApplyElsewhere(Books(front), r, pid);
      } else if !r.Created? {
        PH.ApplyHere(Books(front), r);
      }
    }
  }

  lemma OtherThanProfit(pm: string, front: Log, e: Entry, fills: seq<Fill>, who: set<string>, pid: string)
    requires PH.Proper(pm, front + [e]) && PH.Proper(pm, front) && Backed(front, e, fills, who)
    requires ProfitsAre(front, fills, pid) && !IsProfit(e.payload, pid) && EnteredFirst(front + [e], pid)
    ensures ProfitsAre(front + [e], fills, pid)
  {
    var log := front + [e];
    assert log[..|front|] == front;
    OnOther(front, e, fills, RealizedOf(pid));
    if AnyProfit(front, pid) {
      var i :| 0 <= i < |front| && IsProfit(front[i].payload, pid);
      assert IsProfit(log[i].payload, pid) && log[|front|] == e;
      AverageStays(pm, front, e, pid);
    } else {
      assert forall i :: 0 <= i < |log| ==> !IsProfit(log[i].payload, pid);
    }
  }

  lemma {:induction false} ProfitsAddUp(pm: string, log: Log, fills: seq<Fill>, who: set<string>, pid: string)
    requires PH.Proper(pm, log) && Ordered(log) && Trail(log, fills, who) && Venue(fills) && pid in who && EnteredFirst(log, pid)
    ensures ProfitsAre(log, fills, pid)
  {
    if log == [] {
      NothingOn(fills, RealizedOf(pid));
    } else {
      var front, e := log[..|log| - 1], log[|log| - 1];
      assert front + [e] == log;
      ProfitsAddUp(pm, front, fills, who, pid);
      if IsProfit(e.payload, pid) {
        ProfitStep(front, e, fills, who, pid);
      } else {
        OtherThanProfit(pm, front, e, fills, who, pid);
      }
    }
  }

  // ---- the charges ----

  lemma ChargeStep(front: Log, e: Entry, fills: seq<Fill>, who: set<string>, pid: string)
    requires Ordered(front + [e]) && Backed(front, e, fills, who) && Venue(fills) && pid in who
    ensures Total(On(front + [e], fills, FeeOf(pid)), OfFee) == Total(On(front, fills, FeeOf(pid)), OfFee) + FeeIn(e.payload, pid)
  {
    assert (front + [e])[..|front|] == front;
    KeysAreOneToOne(pid);
    if e.payload.Portfolio? && e.payload.portfolio.FeeBooked? && e.payload.portfolio.reference == pid {
      var f :| f in fills && e.key.value.portfolioKey == FeeKey(pid, f.id) && e.payload.portfolio.amount == f.fee > 0.0;
      OnTaken(front, e, fills, f, FeeOf(pid), OfFee);
    } else {
      OnOther(front, e, fills, FeeOf(pid));
    }
  }

  lemma {:induction false} ChargesAddUp(log: Log, fills: seq<Fill>, who: set<string>, pid: string)
    requires Ordered(log) && Trail(log, fills, who) && Venue(fills) && pid in who
    ensures Charges(log, pid) == Total(On(log, fills, FeeOf(pid)), OfFee)
  {
    if log == [] {
      NothingOn(fills, FeeOf(pid));
    } else {
      var front, e := log[..|log| - 1], log[|log| - 1];
      assert front + [e] == log;
      ChargesAddUp(front, fills, who, pid);
      ChargeStep(front, e, fills, who, pid);
    }
  }

  /** Only entry fills with a fee are charged. */
  lemma {:induction false} ChargedIsEntry(log: Log, fills: seq<Fill>, who: set<string>, pid: string, f: Fill)
    requires Trail(log, fills, who) && Venue(fills) && pid in who && f in fills && HasKey(log, FeeOf(pid)(f.id))
    ensures HasKey(log, EntryOf(pid)(f.id)) && f.fee > 0.0
  {
    var front, e := log[..|log| - 1], log[|log| - 1];
    if HasKey(front, FeeOf(pid)(f.id)) {
      ChargedIsEntry(front, fills, who, pid, f);
    } else {
      var g :| g in fills && e.key.value.portfolioKey == FeeKey(pid, g.id) && e.payload.portfolio.amount == g.fee > 0.0
               && HasKey(front, EntryOf(pid)(g.id));
      SameFill(fills, f, g);
    }
  }

  /** With every fee booked, the charges are those of the entry fills. */
  lemma {:induction false} ChargesOfEntries(log: Log, fills: seq<Fill>, part: seq<Fill>, pid: string)
    requires FeesUp(log, fills, pid) && forall f :: f in part ==> f in fills
    requires forall f :: f in fills && HasKey(log, FeeOf(pid)(f.id)) ==> HasKey(log, EntryOf(pid)(f.id)) && f.fee > 0.0
    ensures Total(On(log, part, FeeOf(pid)), OfFee) == Total(On(log, part, EntryOf(pid)), OfCharge)
  {
    if part != [] {
      var front, f := part[..|part| - 1], part[|part| - 1];
      assert f in part;
      ChargesOfEntries(log, fills, front, pid);
      TotalOfJoin(On(log, front, FeeOf(pid)), if HasKey(log, FeeOf(pid)(f.id)) then [f] else [], OfFee);
      TotalOfJoin(On(log, front, EntryOf(pid)), if HasKey(log, EntryOf(pid)(f.id)) then [f] else [], OfCharge);
    }
  }

  /** A closed position owes no fee any more. */
  lemma {:induction false} FeesUpWhenDead(pm: string, log: Log, fills: seq<Fill>, who: set<string>, pid: string)
    requires PH.Proper(pm, log) && Trail(log, fills, who) && pid in who && DeadOn(log, pid) && InTurn(log, fills, pid)
    ensures FeesUp(log, fills, pid)
  {
    var front, e := log[..|log| - 1], log[|log| - 1];
    assert front + [e] == log;
    assert InTurn(front, fills, pid);
    if DeadOn(front, pid) {
      FeesUpWhenDead(pm, front, fills, who, pid);
    } else {
      DiesByClose(pm, front, e, fills, who, pid);
    }
    assert FeesUp(front, fills, pid);
    forall f | f in fills && f.fee > 0.0 && HasKey(log, EntryOf(pid)(f.id))
      ensures HasKey(log, FeeOf(pid)(f.id))
    {
      NoEntryWhenDead(pm, front, e, pid, f.id);
    }
  }

  lemma DeadTakesNoEntry(pm: string, m: P.Memory, r: PositionRecord, pid: string)
    requires PH.Guard(pm, m, r) && pid in m.snapshots && Dead(m.snapshots[pid].state)
    ensures !(r.EntryFill? && r.pid == pid)
  {
  }

  /** The event a position dies by, or that follows its death, is no entry of it. */
  lemma NoEntryWhenDead(pm: string, front: Log, e: Entry, pid: string, id: string)
    requires PH.Proper(pm, front + [e]) && PH.Proper(pm, front) && (DeadOn(front, pid) || IsClose(e, pid))
    ensures e.key != Some(EntryOf(pid)(id))
  {
    assert (front + [e])[..|front|] == front;
    hide PH.Guard, P.Apply, P.Replay;
    if e.payload.Position? && DeadOn(front, pid) {
      DeadTakesNoEntry(pm, Books(front), e.payload.position, pid);
    }
  }
}
