/**
 What the portfolio ledger owes to its requests: every balance as a sum over the log, every
 position's margin as a sum since its last release, and the answer to each request.
 */
module PortfolioLaws {
  import opened Wrappers
  import opened EventLog
  import opened Records
  import opened Sums
  import opened Portfolio

  // ---- sums over the log ----

  function Amounts(log: Log, of: PortfolioRecord -> real): real {
    if log == [] then 0.0
    else
      var p := log[|log| - 1].payload;
      Amounts(log[..|log| - 1], of) + (if p.Portfolio? then of(p.portfolio) else 0.0)
  }

  const OfDeposit: PortfolioRecord -> real := (r: PortfolioRecord) => if r.Deposited? then r.amount else 0.0
  const OfWithdrawal: PortfolioRecord -> real := (r: PortfolioRecord) => if r.Withdrawn? then r.amount else 0.0
  const OfProfit: PortfolioRecord -> real := (r: PortfolioRecord) => if r.RealizedPnl? then r.amount else 0.0
  const OfFunding: PortfolioRecord -> real := (r: PortfolioRecord) => if r.FundingBooked? then r.amount else 0.0
  const OfFee: PortfolioRecord -> real := (r: PortfolioRecord) => if r.FeeBooked? then r.amount else 0.0

  function OfReserved(pid: string): PortfolioRecord -> real {
    (r: PortfolioRecord) => if r.Reserved? && r.pid == pid then r.amount else 0.0
  }

  function OfAllocated(pid: string): PortfolioRecord -> real {
    (r: PortfolioRecord) => if r.Allocated? && r.pid == pid then r.amount else 0.0
  }

  /** What came in less what went out. */
  function Net(log: Log): real {
    Amounts(log, OfDeposit) - Amounts(log, OfWithdrawal) + Amounts(log, OfProfit) + Amounts(log, OfFunding) - Amounts(log, OfFee)
  }

  ghost predicate SumsUp(m: Memory, deposits: real, withdrawals: real, profits: real, funding: real, fees: real) {
    && m.deposits == deposits && m.withdrawals == withdrawals
    && m.realized == profits && m.funding == funding && m.fees == fees
    && m.cash + m.reserved + m.used == deposits - withdrawals + profits + funding - fees
  }

  lemma SumsUpStep(m: Memory, r: PortfolioRecord, deposits: real, withdrawals: real, profits: real, funding: real, fees: real)
    requires SumsUp(m, deposits, withdrawals, profits, funding, fees)
    ensures SumsUp(Apply(m, r), deposits + OfDeposit(r), withdrawals + OfWithdrawal(r), profits + OfProfit(r),
                   funding + OfFunding(r), fees + OfFee(r))
  {
  }

  lemma {:induction false} LogSumsUp(log: Log)
    ensures SumsUp(Replay(log), Amounts(log, OfDeposit), Amounts(log, OfWithdrawal), Amounts(log, OfProfit),
                   Amounts(log, OfFunding), Amounts(log, OfFee))
  {
    if log != [] {
      var front, p := log[..|log| - 1], log[|log| - 1].payload;
      LogSumsUp(front);
      hide SumsUp, Apply;
      if p.Portfolio? {
        SumsUpStep(Replay(front), p.portfolio, Amounts(front, OfDeposit), Amounts(front, OfWithdrawal), Amounts(front, OfProfit),
                   Amounts(front, OfFunding), Amounts(front, OfFee));
      }
    }
  }

  /**
   Every cumulative figure is the sum over the log, and what is in cash, reserved and in use
   is what came in less what went out; equity adds the last mark.
   */
  lemma LedgerIsSums(log: Log)
    ensures var m := Replay(log);
      && m.deposits == Amounts(log, OfDeposit) && m.withdrawals == Amounts(log, OfWithdrawal)
      && m.realized == Amounts(log, OfProfit) && m.funding == Amounts(log, OfFunding) && m.fees == Amounts(log, OfFee)
      && m.cash + m.reserved + m.used == Net(log)
      && Equity(m) == Assets(m) == Net(log) + m.unrealized
  {
    hide Amounts, Replay;
    LogSumsUp(log);
  }

  // ---- margin since the last release ----

  /** The part of the log behind the last release of the position. */
  function SinceRelease(log: Log, pid: string): Log {
    if log == [] || log[|log| - 1].payload == Portfolio(Released(pid)) then []
    else SinceRelease(log[..|log| - 1], pid) + [log[|log| - 1]]
  }

  lemma AmountsOfMore(log: Log, e: Entry, of: PortfolioRecord -> real)
    ensures Amounts(log + [e], of) == Amounts(log, of) + (if e.payload.Portfolio? then of(e.payload.portfolio) else 0.0)
  {
    assert (log + [e])[..|log|] == log;
  }

  lemma MarginStep(m: Memory, r: PortfolioRecord, pid: string)
    ensures var m' := Apply(m, r);
      if r == Released(pid) then At(m'.usedBy, pid) == 0.0 && At(m'.reservedBy, pid) == 0.0 && pid in m'.released
      else
        && At(m'.usedBy, pid) == At(m.usedBy, pid) + OfAllocated(pid)(r)
        && At(m'.reservedBy, pid) == At(m.reservedBy, pid) + OfReserved(pid)(r) - OfAllocated(pid)(r)
        && (pid in m'.released <==> pid in m.released)
  {
  }

  /**
   A position has in use what was allocated since its last release, and reserved what was
   reserved less what was allocated since then; it counts as released from the first on.
   */
  lemma {:induction false} MarginIsSums(log: Log, pid: string)
    ensures var m, since := Replay(log), SinceRelease(log, pid);
      && At(m.usedBy, pid) == Amounts(since, OfAllocated(pid))
      && At(m.reservedBy, pid) == Amounts(since, OfReserved(pid)) - Amounts(since, OfAllocated(pid))
      && (pid in m.released <==> ReleasedOn(log, pid))
  {
    if log != [] {
      var front, e := log[..|log| - 1], log[|log| - 1];
      MarginIsSums(front, pid);
      hide Amounts, Apply, ReleasedOn, At;
      assert front + [e] == log;
      ReleasedOnMore(front, e, pid);
      AmountsOfMore(SinceRelease(front, pid), e, OfAllocated(pid));
      AmountsOfMore(SinceRelease(front, pid), e, OfReserved(pid));
      AmountsOfNothing(OfAllocated(pid));
      AmountsOfNothing(OfReserved(pid));
      if e.payload.Portfolio? {
        MarginStep(Replay(front), e.payload.portfolio, pid);
      }
    }
  }

  lemma AmountsOfNothing(of: PortfolioRecord -> real)
    ensures Amounts([], of) == 0.0
  {
  }

  predicate ReleasedOn(log: Log, pid: string) {
    exists i :: 0 <= i < |log| && log[i].payload == Portfolio(Released(pid))
  }

  lemma ReleasedOnMore(log: Log, e: Entry, pid: string)
    ensures ReleasedOn(log + [e], pid) <==> ReleasedOn(log, pid) || e.payload == Portfolio(Released(pid))
  {
    var more := log + [e];
    if ReleasedOn(log, pid) {
      var i :| 0 <= i < |log| && log[i].payload == Portfolio(Released(pid));
      assert more[i] == log[i];
    } else if e.payload == Portfolio(Released(pid)) {
      assert more[|log|] == e;
    }
  }

  /** The marks of the latest update. */
  function Marks(log: Log): (real, real, real) {
    if log == [] then (0.0, 0.0, 0.0)
    else
      var p := log[|log| - 1].payload;
      if p.Portfolio? && p.portfolio.MarksUpdated? then (p.portfolio.unrealized, p.portfolio.exposure, p.portfolio.heat)
      else Marks(log[..|log| - 1])
  }

  lemma {:induction false} MarksAreLast(log: Log)
    ensures var m := Replay(log); (m.unrealized, m.exposure, m.heat) == Marks(log)
  {
    if log != [] {
      MarksAreLast(log[..|log| - 1]);
    }
  }

  // ---- what one request does ----

  predicate Unanswered(log: Log, q: Request) {
    match q
    case Deposit(_, request) => !HasKey(log, ForPortfolio(DepositKey(request)))
    case Withdraw(_, request) => !HasKey(log, ForPortfolio(WithdrawKey(request)))
    case Reserve(pid, _, request) => !HasKey(log, ForPortfolio(ReserveKey(pid, request)))
    case Allocate(pid, _, request) => !HasKey(log, ForPortfolio(AllocateKey(pid, request)))
    case Release(pid, request) => !HasKey(log, ForPortfolio(ReleaseKey(pid, request)))
    case BookPnl(pid, legId, _) => !HasKey(log, ForPortfolio(RealizedKey(pid, legId)))
    case BookFunding(pid, fundingId, _) => !HasKey(log, ForPortfolio(FundingKey(pid, fundingId)))
    case BookFee(reference, feeId, _) => !HasKey(log, ForPortfolio(FeeKey(reference, feeId)))
    case UpdateMarks(_, _, _, request) => !HasKey(log, ForPortfolio(MarksKey(request)))
  }

  /** Answered, and one record further: the request's own. */
  ghost predicate Books(w: World, q: Request, r: PortfolioRecord) {
    var (w', out) := Handle(w, q);
    && out == Done && |w'.log| == |w.log| + 1 && w.log <= w'.log
    && w'.log[|w.log|].id == NextId(w.log) && w'.log[|w.log|].payload == Portfolio(r)
    && w'.mem == Replay(w'.log) && !Unanswered(w'.log, q)
  }

  ghost predicate Refuses(w: World, q: Request, error: Error) {
    Handle(w, q) == (w, Refused(error))
  }

  /**
   A request asked for the first time.  It is booked when its amount is a proper one and
   there is enough to take it from: cash for a withdrawal or a reservation, the position's
   own reservation for an allocation.  Otherwise nothing changes and the error says which.
   */
  lemma FirstAnswer(w: World, q: Request)
    requires Good(w) && Unanswered(w.log, q)
    ensures match q
      case Deposit(amount, _) => if amount > 0.0 then Books(w, q, Deposited(amount)) else Refuses(w, q, BadAmount)
      case Withdraw(amount, _) =>
        if amount <= 0.0 then Refuses(w, q, BadAmount)
        else if amount <= w.mem.cash then Books(w, q, Withdrawn(amount)) else Refuses(w, q, InsufficientFunds)
      case Reserve(pid, amount, _) =>
        if amount <= 0.0 then Refuses(w, q, BadAmount)
        else if amount <= w.mem.cash then Books(w, q, Reserved(pid, amount)) else Refuses(w, q, InsufficientFunds)
      case Allocate(pid, amount, _) =>
        if amount <= 0.0 then Refuses(w, q, BadAmount)
        else if amount <= At(w.mem.reservedBy, pid) then Books(w, q, Allocated(pid, amount)) else Refuses(w, q, InsufficientMargin)
      case Release(pid, _) => if ReleasedOn(w.log, pid) then Handle(w, q) == (w, Done) else Books(w, q, Released(pid))
      case BookPnl(pid, _, amount) => Books(w, q, RealizedPnl(pid, amount))
      case BookFunding(pid, _, amount) => Books(w, q, FundingBooked(pid, amount))
      case BookFee(reference, _, amount) => if amount >= 0.0 then Books(w, q, FeeBooked(reference, amount)) else Refuses(w, q, BadAmount)
      case UpdateMarks(unrealized, exposure, heat, _) => Books(w, q, MarksUpdated(unrealized, exposure, heat))
  {
    if q.Release? {
      MarginIsSums(w.log, q.pid);
    }
    HandleDecides(w, q);
    hide Good, Handle, HasKey, Books, ReleasedOn;
  }

  lemma UnansweredIsFree(log: Log, q: Request)
    ensures Unanswered(log, q) <==> !HasKey(log, ForPortfolio(KeyOf(q)))
  {
  }

  lemma HandleDecides(w: World, q: Request)
    requires Good(w) && Unanswered(w.log, q)
    ensures if !AmountOk(q) then Refuses(w, q, BadAmount)
            else if AlreadyReleased(w.mem, q) then Handle(w, q) == (w, Done)
            else if FundsError(w.mem, q).Some? then Refuses(w, q, FundsError(w.mem, q).value)
            else Books(w, q, RecordOf(q))
  {
    UnansweredIsFree(w.log, q);
    HandleKeeps(w, q);
    AppendedKeepsOrder(w.log, Some(ForPortfolio(KeyOf(q))), Portfolio(RecordOf(q)));
    UnansweredIsFree(Handle(w, q).0.log, q);
    hide Balanced, Apply, Unanswered, HasKey, KeyOf, RecordOf, FundsError, AmountOk;
  }

  /** Asked again, under the same name and with whatever proper amount, it changes nothing and is answered. */
  lemma LaterAnswer(w: World, q: Request)
    requires Good(w) && !Unanswered(w.log, q)
    ensures match q
      case Deposit(amount, _) => Handle(w, q) == (w, if amount > 0.0 then Done else Refused(BadAmount))
      case Withdraw(amount, _) => Handle(w, q) == (w, if amount > 0.0 then Done else Refused(BadAmount))
      case Reserve(_, amount, _) => Handle(w, q) == (w, if amount > 0.0 then Done else Refused(BadAmount))
      case Allocate(_, amount, _) => Handle(w, q) == (w, if amount > 0.0 then Done else Refused(BadAmount))
      case BookFee(_, _, amount) => Handle(w, q) == (w, if amount >= 0.0 then Done else Refused(BadAmount))
      case _ => Handle(w, q) == (w, Done)
  {
  }

  /** A first withdrawal is paid out exactly when the cash covers it, and then cash and nothing else is less by it. */
  lemma WithdrawalIsPaid(w: World, amount: real, request: string)
    requires Good(w) && !HasKey(w.log, ForPortfolio(WithdrawKey(request)))
    ensures var (w', out) := Handle(w, Withdraw(amount, request));
      && (out == Done <==> 0.0 < amount <= w.mem.cash)
      && (out == Done ==> w'.mem == w.mem.(cash := w.mem.cash - amount, withdrawals := w.mem.withdrawals + amount))
      && (out != Done ==> w' == w)
  {
    hide Balanced;
    FirstAnswer(w, Withdraw(amount, request));
  }

  // ---- over runs ----

  /** The sum over the requests of these actions. */
  function Asked(actions: seq<Action>, of: PortfolioRecord -> real): real {
    if actions == [] then 0.0
    else
      var a := actions[|actions| - 1];
      Asked(actions[..|actions| - 1], of) + (if a.Ask? then Wanted(a.request, of) else 0.0)
  }

  /** What a request wants booked, measured. */
  function Wanted(q: Request, of: PortfolioRecord -> real): real {
    match q
    case Deposit(amount, _) => of(Deposited(amount))
    case Withdraw(amount, _) => of(Withdrawn(amount))
    case Reserve(pid, amount, _) => of(Reserved(pid, amount))
    case Allocate(pid, amount, _) => of(Allocated(pid, amount))
    case Release(pid, _) => of(Released(pid))
    case BookPnl(pid, _, amount) => of(RealizedPnl(pid, amount))
    case BookFunding(pid, _, amount) => of(FundingBooked(pid, amount))
    case BookFee(reference, _, amount) => of(FeeBooked(reference, amount))
    case UpdateMarks(unrealized, exposure, heat, _) => of(MarksUpdated(unrealized, exposure, heat))
  }

  lemma ActAdds(w: World, a: Action, of: PortfolioRecord -> real)
    requires Good(w) && Allowed(a)
    ensures Amounts(Act(w, a).log, of)
         == Amounts(w.log, of) + (if a.Ask? && Act(w, a).log != w.log then Wanted(a.request, of) else 0.0)
  {
    hide Balanced, Apply, Amounts;
    if Act(w, a).log != w.log {
      AmountsOfMore(w.log, Act(w, a).log[|w.log|], of);
    }
  }

  lemma {:induction false} BookedAddUp(w: World, actions: seq<Action>, of: PortfolioRecord -> real)
    requires Good(w) && AllAllowed(actions) && Amounts(w.log, of) == 0.0
    ensures Amounts(Run(w, actions).log, of) == Asked(Booked(w, actions), of)
  {
    hide Good, Act, Amounts, Wanted;
    if actions != [] {
      var front, a := actions[..|actions| - 1], actions[|actions| - 1];
      BookedAddUp(w, front, of);
      RunIsGood(w, front);
      ActAdds(Run(w, front), a, of);
      assert Booked(w, front) + [] == Booked(w, front);
      assert (Booked(w, front) + [a])[..|Booked(w, front)|] == Booked(w, front);
    }
  }

  /**
   Over every run, duplicates, refusals, other writers and restarts included: each
   cumulative figure is the sum of the amounts of the distinct requests that were booked,
   and cash, reserved and used together are deposits less withdrawals plus profits plus
   funding less fees.
   */
  lemma RunIsSums(actions: seq<Action>)
    requires AllAllowed(actions)
    ensures var m, booked := Run(World(Initial, []), actions).mem, Booked(World(Initial, []), actions);
      && DistinctKeys(booked)
      && m.deposits == Asked(booked, OfDeposit) && m.withdrawals == Asked(booked, OfWithdrawal)
      && m.realized == Asked(booked, OfProfit) && m.funding == Asked(booked, OfFunding) && m.fees == Asked(booked, OfFee)
      && m.cash + m.reserved + m.used
         == Asked(booked, OfDeposit) - Asked(booked, OfWithdrawal) + Asked(booked, OfProfit) + Asked(booked, OfFunding) - Asked(booked, OfFee)
  {
    hide Balanced, Asked, Run, Booked;
    var start := World(Initial, []);
    EmptyIsGood();
    RunIsGood(start, actions);
    DuplicatesDropOut(start, actions);
    LedgerIsSums(Run(start, actions).log);
    BookedAddUp(start, actions, OfDeposit);
    BookedAddUp(start, actions, OfWithdrawal);
    BookedAddUp(start, actions, OfProfit);
    BookedAddUp(start, actions, OfFunding);
    BookedAddUp(start, actions, OfFee);
  }
}
