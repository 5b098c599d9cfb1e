/**
 The portfolio ledger: two independent accounts of the same capital, per-position margin,
 and every request answered at most once.
 */
module Portfolio {
  import opened Wrappers
  import opened EventLog
  import opened Records
  import opened Sums

  datatype Memory = Memory(
    cash: real, reserved: real, used: real, unrealized: real,
    realized: real, funding: real, fees: real, deposits: real, withdrawals: real,
    exposure: real, heat: real,
    open: set<string>,
    reservedBy: map<string, real>,
    usedBy: map<string, real>,
    released: set<string>)

  const Initial: Memory :=
    Memory(0.0, 0.0, 0.0, 0.0, 0.0, 0.0, 0.0, 0.0, 0.0, 0.0, 0.0, {}, map[], map[], {})

  // ---- the two accounts ----

  function WalletBalance(m: Memory): real {
    m.deposits - m.withdrawals + m.realized + m.funding - m.fees
  }

  function Equity(m: Memory): real {
    WalletBalance(m) + m.unrealized
  }

  function Assets(m: Memory): real {
    m.cash + m.reserved + m.used + m.unrealized
  }

  // ---- applying one record ----

  function Apply(m: Memory, r: PortfolioRecord): Memory {
    match r
    case Deposited(amount) => m.(cash := m.cash + amount, deposits := m.deposits + amount)
    case Withdrawn(amount) => m.(cash := m.cash - amount, withdrawals := m.withdrawals + amount)
    case Reserved(pid, amount) =>
      m.(cash := m.cash - amount, reserved := m.reserved + amount,
         reservedBy := m.reservedBy[pid := At(m.reservedBy, pid) + amount])
    case Allocated(pid, amount) =>
      m.(reserved := m.reserved - amount, used := m.used + amount,
         reservedBy := m.reservedBy[pid := At(m.reservedBy, pid) - amount],
         usedBy := m.usedBy[pid := At(m.usedBy, pid) + amount],
         open := m.open + {pid})
    case Released(pid) =>
      var held, taken := At(m.reservedBy, pid), At(m.usedBy, pid);
      m.(reserved := m.reserved - held, used := m.used - taken, cash := m.cash + (held + taken),
         reservedBy := m.reservedBy - {pid}, usedBy := m.usedBy - {pid},
         released := m.released + {pid}, open := m.open - {pid})
    case RealizedPnl(_, amount) => m.(cash := m.cash + amount, realized := m.realized + amount)
    case FundingBooked(_, amount) => m.(cash := m.cash + amount, funding := m.funding + amount)
    case FeeBooked(_, amount) => m.(cash := m.cash - amount, fees := m.fees + amount)
    case MarksUpdated(unrealized, exposure, heat) => m.(unrealized := unrealized, exposure := exposure, heat := heat)
  }

  function Replay(log: Log): Memory {
    if log == [] then Initial
    else
      var before, e := Replay(log[..|log| - 1]), log[|log| - 1];
      if e.payload.Portfolio? then Apply(before, e.payload.portfolio) else before
  }

  // ---- requests ----

  datatype Request =
    | Deposit(amount: real, request: string)
    | Withdraw(amount: real, request: string)
    | Reserve(pid: string, amount: real, request: string)
    | Allocate(pid: string, amount: real, request: string)
    | Release(pid: string, request: string)
    | BookPnl(pid: string, legId: string, amount: real)
    | BookFunding(pid: string, fundingId: string, amount: real)
    | BookFee(reference: string, feeId: string, amount: real)
    | UpdateMarks(unrealized: real, exposure: real, heat: real, request: string)

  function KeyOf(q: Request): PortfolioKey {
    match q
    case Deposit(_, request) => DepositKey(request)
    case Withdraw(_, request) => WithdrawKey(request)
    case Reserve(pid, _, request) => ReserveKey(pid, request)
    case Allocate(pid, _, request) => AllocateKey(pid, request)
    case Release(pid, request) => ReleaseKey(pid, request)
    case BookPnl(pid, legId, _) => RealizedKey(pid, legId)
    case BookFunding(pid, fundingId, _) => FundingKey(pid, fundingId)
    case BookFee(reference, feeId, _) => FeeKey(reference, feeId)
    case UpdateMarks(_, _, _, request) => MarksKey(request)
  }

  function RecordOf(q: Request): PortfolioRecord {
    match q
    case Deposit(amount, _) => Deposited(amount)
    case Withdraw(amount, _) => Withdrawn(amount)
    case Reserve(pid, amount, _) => Reserved(pid, amount)
    case Allocate(pid, amount, _) => Allocated(pid, amount)
    case Release(pid, _) => Released(pid)
    case BookPnl(pid, _, amount) => RealizedPnl(pid, amount)
    case BookFunding(pid, _, amount) => FundingBooked(pid, amount)
    case BookFee(reference, _, amount) => FeeBooked(reference, amount)
    case UpdateMarks(unrealized, exposure, heat, _) => MarksUpdated(unrealized, exposure, heat)
  }

  datatype Error = BadAmount | InsufficientFunds | InsufficientMargin
  datatype Outcome = Done | Refused(error: Error)

  /** The amount check that comes before the duplicate check. */
  predicate AmountOk(q: Request) {
    match q
    case Deposit(amount, _) => amount > 0.0
    case Withdraw(amount, _) => amount > 0.0
    case Reserve(_, amount, _) => amount > 0.0
    case Allocate(_, amount, _) => amount > 0.0
    case BookFee(_, _, amount) => amount >= 0.0
    case _ => true
  }

  /** The funds check that comes after the duplicate check. */
  function FundsError(m: Memory, q: Request): Option<Error> {
    match q
    case Withdraw(amount, _) => if amount > m.cash then Some(InsufficientFunds) else None
    case Reserve(_, amount, _) => if amount > m.cash then Some(InsufficientFunds) else None
    case Allocate(pid, amount, _) => if amount > At(m.reservedBy, pid) then Some(InsufficientMargin) else None
    case _ => None
  }

  datatype World = World(mem: Memory, log: Log)

  /** A position is released once, whatever the request calls itself. */
  predicate AlreadyReleased(m: Memory, q: Request) {
    q.Release? && q.pid in m.released
  }

  function Handle(w: World, q: Request): (World, Outcome) {
    if !AmountOk(q) then (w, Refused(BadAmount))
    else if AlreadyReleased(w.mem, q) || HasKey(w.log, ForPortfolio(KeyOf(q))) then (w, Done)
    else if FundsError(w.mem, q).Some? then (w, Refused(FundsError(w.mem, q).value))
    else
      (World(Apply(w.mem, RecordOf(q)), Appended(w.log, Some(ForPortfolio(KeyOf(q))), Portfolio(RecordOf(q)))), Done)
  }

  // ---- what every history keeps ----

  ghost predicate Balanced(m: Memory) {
    && Assets(m) == Equity(m)
    && m.reserved == Sum(m.reservedBy) && m.used == Sum(m.usedBy)
    && (forall pid :: pid in m.reservedBy ==> m.reservedBy[pid] >= 0.0)
    && (forall pid :: pid in m.open <==> At(m.usedBy, pid) > 0.0)
    && (forall pid :: pid in m.usedBy ==> m.usedBy[pid] > 0.0)
  }

  lemma BalancedAfterReserve(m: Memory, pid: string, amount: real)
    requires Balanced(m) && amount > 0.0
    ensures Balanced(Apply(m, Reserved(pid, amount)))
  {
    SumAfter(m.reservedBy, pid, At(m.reservedBy, pid) + amount);
  }

  lemma BalancedAfterAllocate(m: Memory, pid: string, amount: real)
    requires Balanced(m) && 0.0 < amount <= At(m.reservedBy, pid)
    ensures Balanced(Apply(m, Allocated(pid, amount)))
  {
    SumAfter(m.reservedBy, pid, At(m.reservedBy, pid) - amount);
    SumAfter(m.usedBy, pid, At(m.usedBy, pid) + amount);
  }

  lemma BalancedAfterRelease(m: Memory, pid: string)
    requires Balanced(m)
    ensures Balanced(Apply(m, Released(pid)))
  {
    SumWithout(m.reservedBy, pid);
    SumWithout(m.usedBy, pid);
  }

  /** The kind of key each kind of record is stored under. */
  predicate Fits(k: PortfolioKey, r: PortfolioRecord) {
    match r
    case Deposited(_) => k.DepositKey?
    case Withdrawn(_) => k.WithdrawKey?
    case Reserved(pid, _) => k.ReserveKey? && k.pid == pid
    case Allocated(pid, _) => k.AllocateKey? && k.pid == pid
    case Released(pid) => k.ReleaseKey? && k.pid == pid
    case RealizedPnl(pid, _) => k.RealizedKey? && k.pid == pid
    case FundingBooked(pid, _) => k.FundingKey? && k.pid == pid
    case FeeBooked(reference, _) => k.FeeKey? && k.reference == reference
    case MarksUpdated(_, _, _) => k.MarksKey?
  }

  predicate EntryFits(e: Entry) {
    if e.payload.Portfolio? then e.key.Some? && e.key.value.ForPortfolio? && Fits(e.key.value.portfolioKey, e.payload.portfolio)
    else e.key.Some? ==> !e.key.value.ForPortfolio?
  }

  predicate Keyed(log: Log) {
    log == [] || (Keyed(log[..|log| - 1]) && EntryFits(log[|log| - 1]))
  }

  /** Requests as they can follow each other on the log: each passed its checks. */
  ghost predicate Good(w: World) {
    Ordered(w.log) && Keyed(w.log) && w.mem == Replay(w.log) && Balanced(w.mem)
  }

  lemma HandleKeeps(w: World, q: Request)
    requires Good(w)
    ensures Good(Handle(w, q).0) && w.log <= Handle(w, q).0.log
  {
    var w' := Handle(w, q).0;
    if w' != w {
      AppendedKeepsOrder(w.log, Some(ForPortfolio(KeyOf(q))), Portfolio(RecordOf(q)));
      assert w'.log[..|w.log|] == w.log;
      match q
      case Reserve(pid, amount, _) => BalancedAfterReserve(w.mem, pid, amount);
      case Allocate(pid, amount, _) => BalancedAfterAllocate(w.mem, pid, amount);
      case Release(pid, _) => BalancedAfterRelease(w.mem, pid);
      case _ =>
    }
  }

  // ---- runs ----

  datatype Action =
    | Ask(request: Request)
    | Restart
    | OtherWriter(key: Option<Key>, payload: Payload)

  predicate Allowed(a: Action) {
    a.OtherWriter? ==> !a.payload.Portfolio? && SameSource(a.key, a.payload)
  }

  function Act(w: World, a: Action): World {
    match a
    case Ask(q) => Handle(w, q).0
    case Restart => World(Replay(w.log), w.log)
    case OtherWriter(key, payload) => w.(log := Appended(w.log, key, payload))
  }

  function Run(w: World, actions: seq<Action>): World {
    if actions == [] then w
    else Act(Run(w, actions[..|actions| - 1]), actions[|actions| - 1])
  }

  lemma ActKeeps(w: World, a: Action)
    requires Good(w) && Allowed(a)
    ensures Good(Act(w, a)) && w.log <= Act(w, a).log
  {
    match a
    case Ask(q) => HandleKeeps(w, q);
    case Restart =>
    case OtherWriter(key, payload) =>
      AppendedKeepsOrder(w.log, key, payload);
      if Act(w, a).log != w.log {
        assert Act(w, a).log[..|w.log|] == w.log;
      }
  }

  lemma EmptyIsBalanced(m: Memory)
    requires m == Initial
    ensures Balanced(m)
  {
    SumOfNothing();
    assert m.reservedBy == map[] && m.usedBy == map[] && m.open == {};
  }

  lemma EmptyIsGood()
    ensures Good(World(Initial, []))
  {
    EmptyIsBalanced(Initial);
    hide Balanced;
  }

  /**
   Over any run with duplicates, refusals, other writers and restarts: assets equal equity,
   reserved and used margin are the sums over the positions with no negative entry, and the
   open positions are exactly those with margin in use.
   */
  lemma {:induction false} RunIsBalanced(actions: seq<Action>)
    requires forall i :: 0 <= i < |actions| ==> Allowed(actions[i])
    ensures Good(Run(World(Initial, []), actions))
  {
    if actions == [] {
      EmptyIsGood();
    } else {
      var front, a := actions[..|actions| - 1], actions[|actions| - 1];
      RunIsBalanced(front);
      ActKeeps(Run(World(Initial, []), front), a);
    }
  }

  // ---- duplicates ----

  /** The actions of a run that added to the log, in order. */
  function Booked(w: World, actions: seq<Action>): seq<Action> {
    if actions == [] then []
    else
      var front, a := actions[..|actions| - 1], actions[|actions| - 1];
      var before := Run(w, front);
      Booked(w, front) + (if Act(before, a).log != before.log then [a] else [])
  }

  predicate DistinctKeys(actions: seq<Action>) {
    forall i, j :: 0 <= i < j < |actions| && actions[i].Ask? && actions[j].Ask? ==>
      KeyOf(actions[i].request) != KeyOf(actions[j].request)
  }

  predicate AllAllowed(actions: seq<Action>) {
    forall i :: 0 <= i < |actions| ==> Allowed(actions[i])
  }

  lemma RunSnoc(w: World, actions: seq<Action>, a: Action)
    ensures Run(w, actions + [a]) == Act(Run(w, actions), a)
  {
    assert (actions + [a])[..|actions|] == actions;
  }

  lemma UnbookedChangesNothing(w: World, a: Action)
    requires Good(w) && Act(w, a).log == w.log
    ensures Act(w, a) == w
  {
  }

  lemma {:induction false} RunIsGood(w: World, actions: seq<Action>)
    requires Good(w) && AllAllowed(actions)
    ensures Good(Run(w, actions)) && w.log <= Run(w, actions).log
  {
    if actions != [] {
      var front, a := actions[..|actions| - 1], actions[|actions| - 1];
      RunIsGood(w, front);
      ActKeeps(Run(w, front), a);
    }
  }

  /** A request that is booked finds its key free, and takes it. */
  lemma BookedTakesItsKey(w: World, q: Request)
    requires Good(w) && Handle(w, q).0.log != w.log
    ensures !HasKey(w.log, ForPortfolio(KeyOf(q))) && HasKey(Handle(w, q).0.log, ForPortfolio(KeyOf(q)))
  {
    AppendedKeepsOrder(w.log, Some(ForPortfolio(KeyOf(q))), Portfolio(RecordOf(q)));
  }

  lemma {:induction false} BookedKeysAreOnLog(w: World, actions: seq<Action>, i: nat)
    requires Good(w) && AllAllowed(actions) && i < |Booked(w, actions)| && Booked(w, actions)[i].Ask?
    ensures HasKey(Run(w, actions).log, ForPortfolio(KeyOf(Booked(w, actions)[i].request)))
    decreases |actions|
  {
    var front, a := actions[..|actions| - 1], actions[|actions| - 1];
    var before := Run(w, front);
    RunIsGood(w, front);
    ActKeeps(before, a);
    if i < |Booked(w, front)| {
      BookedKeysAreOnLog(w, front, i);
      KeyStays(before.log, Run(w, actions).log, ForPortfolio(KeyOf(Booked(w, actions)[i].request)));
    } else {
      BookedTakesItsKey(before, a.request);
    }
  }

  /**
   Duplicates never matter: a run with repeats, refusals, restarts and other writers ends in
   the very ledger and log it ends in when only the actions that added to the log are
   taken, and no two of the requests among those share a key.
   */
  lemma {:induction false} DuplicatesDropOut(w: World, actions: seq<Action>)
    requires Good(w) && AllAllowed(actions)
    ensures Run(w, Booked(w, actions)) == Run(w, actions)
    ensures DistinctKeys(Booked(w, actions))
  {
    if actions != [] {
      var front, a := actions[..|actions| - 1], actions[|actions| - 1];
      var before := Run(w, front);
      DuplicatesDropOut(w, front);
      RunIsGood(w, front);
      if Act(before, a).log != before.log {
        RunSnoc(w, Booked(w, front), a);
        if a.Ask? {
          BookedTakesItsKey(before, a.request);
        }
        forall i | 0 <= i < |Booked(w, front)| && Booked(w, front)[i].Ask?
          ensures a.Ask? ==> KeyOf(Booked(w, front)[i].request) != KeyOf(a.request)
        {
          BookedKeysAreOnLog(w, front, i);
        }
      } else {
        UnbookedChangesNothing(before, a);
        assert Booked(w, front) + [] == Booked(w, front);
      }
    }
  }

  // ---- margin after a release ----

  lemma {:induction false} ReleaseIsOnRecord(log: Log, pid: string, request: string)
    requires Keyed(log) && HasKey(log, ForPortfolio(ReleaseKey(pid, request)))
    ensures pid in Replay(log).released
  {
    if log[|log| - 1].key != Some(ForPortfolio(ReleaseKey(pid, request))) {
      ReleaseIsOnRecord(log[..|log| - 1], pid, request);
    }
  }

  predicate HoldsNothing(m: Memory, pid: string) {
    At(m.usedBy, pid) == 0.0 && At(m.reservedBy, pid) == 0.0
  }

  /** Asking for a release leaves a position without margin, exactly when it was never released or holds none. */
  lemma ReleaseFrees(w: World, pid: string, request: string)
    requires Good(w)
    ensures HoldsNothing(Handle(w, Release(pid, request)).0.mem, pid) <==> pid !in w.mem.released || HoldsNothing(w.mem, pid)
  {
    if HasKey(w.log, ForPortfolio(ReleaseKey(pid, request))) {
      ReleaseIsOnRecord(w.log, pid, request);
    }
  }

  lemma {:induction false} NothingIsUnreleased(w: World, a: Action, pid: string)
    requires Good(w) && Allowed(a)
    ensures w.mem.released <= Act(w, a).mem.released
    ensures pid in w.mem.released ==> At(Act(w, a).mem.usedBy, pid) >= At(w.mem.usedBy, pid)
  {
  }

  /**
   On every run, repeats, restarts and other writers included: a release stays on record,
   and from then on the margin in use by that position never falls.
   */
  lemma {:induction false} ReallocatedMarginIsStuck(w: World, actions: seq<Action>, pid: string)
    requires Good(w) && AllAllowed(actions)
    ensures var w' := Run(w, actions);
      && w.mem.released <= w'.mem.released
      && (pid in w.mem.released ==> At(w'.mem.usedBy, pid) >= At(w.mem.usedBy, pid))
  {
    if actions != [] {
      var front := actions[..|actions| - 1];
      ReallocatedMarginIsStuck(w, front, pid);
      RunIsGood(w, front);
      NothingIsUnreleased(Run(w, front), actions[|actions| - 1], pid);
    }
  }

  // ---- and how margin gets stuck ----

  const Start: World := World(Initial, [])

  /** Margin taken and released, then taken again and asked to be released again. */
  const TakenTwice: seq<Action> := [
    Ask(Deposit(100.0, "d")), Ask(Reserve("p", 10.0, "a")), Ask(Allocate("p", 10.0, "a")), Ask(Release("p", "a")),
    Ask(Reserve("p", 20.0, "b")), Ask(Allocate("p", 20.0, "b")), Ask(Release("p", "b"))]

  lemma RunOne(w: World, actions: seq<Action>, k: nat)
    requires k < |actions|
    ensures Run(w, actions[..k + 1]) == Act(Run(w, actions[..k]), actions[k])
  {
    assert actions[..k + 1][..k] == actions[..k];
  }

  lemma NoSuchKey(log: Log, key: Key)
    requires forall i :: 0 <= i < |log| ==> log[i].key != Some(key)
    ensures !HasKey(log, key)
  {
    if HasKey(log, key) {
      var i := KeyPosition(log, key);
    }
  }

  /** A request under a free key, its checks passed. */
  lemma TakesEffect(w: World, q: Request)
    requires AmountOk(q) && !AlreadyReleased(w.mem, q) && FundsError(w.mem, q).None?
    requires forall i :: 0 <= i < |w.log| ==> w.log[i].key != Some(ForPortfolio(KeyOf(q)))
    ensures Act(w, Ask(q)).mem == Apply(w.mem, RecordOf(q))
    ensures Act(w, Ask(q)).log == w.log + [Event(NextId(w.log), Some(ForPortfolio(KeyOf(q))), Portfolio(RecordOf(q)))]
  {
    NoSuchKey(w.log, ForPortfolio(KeyOf(q)));
  }

  lemma FirstMargin()
    ensures var w := Run(Start, TakenTwice[..3]);
      && w.mem.cash == 90.0 && At(w.mem.usedBy, "p") == 10.0 && At(w.mem.reservedBy, "p") == 0.0
      && w.mem.released == {} && |w.log| == 3
      && w.log[0].key == Some(ForPortfolio(DepositKey("d"))) && w.log[1].key == Some(ForPortfolio(ReserveKey("p", "a")))
      && w.log[2].key == Some(ForPortfolio(AllocateKey("p", "a")))
  {
    hide Act, Handle, HasKey;
    RunOne(Start, TakenTwice, 0);
    RunOne(Start, TakenTwice, 1);
    RunOne(Start, TakenTwice, 2);
    assert Run(Start, TakenTwice[..0]) == Start;
    hide Run;
    TakesEffect(Start, TakenTwice[0].request);
    TakesEffect(Run(Start, TakenTwice[..1]), TakenTwice[1].request);
    TakesEffect(Run(Start, TakenTwice[..2]), TakenTwice[2].request);
  }

  lemma FirstReleaseWorks()
    ensures var w := Run(Start, TakenTwice[..4]);
      && w.mem.cash == 100.0 && HoldsNothing(w.mem, "p") && w.mem.released == {"p"} && |w.log| == 4
      && w.log[0].key == Some(ForPortfolio(DepositKey("d"))) && w.log[1].key == Some(ForPortfolio(ReserveKey("p", "a")))
      && w.log[2].key == Some(ForPortfolio(AllocateKey("p", "a"))) && w.log[3].key == Some(ForPortfolio(ReleaseKey("p", "a")))
  {
    hide Act, Handle, HasKey, Run;
    FirstMargin();
    RunOne(Start, TakenTwice, 3);
    TakesEffect(Run(Start, TakenTwice[..3]), TakenTwice[3].request);
  }

  /** The run that fails: the second release is answered, and the position keeps its twenty. */
  lemma SecondReleaseDoesNot()
    ensures var w := Run(Start, TakenTwice); At(w.mem.usedBy, "p") == 20.0 && w.mem.cash == 80.0
    ensures Handle(Run(Start, TakenTwice[..6]), TakenTwice[6].request) == (Run(Start, TakenTwice), Done)
  {
    hide Handle, HasKey, Run;
    FirstReleaseWorks();
    RunOne(Start, TakenTwice, 4);
    RunOne(Start, TakenTwice, 5);
    RunOne(Start, TakenTwice, 6);
    TakesEffect(Run(Start, TakenTwice[..4]), TakenTwice[4].request);
    TakesEffect(Run(Start, TakenTwice[..5]), TakenTwice[5].request);
    assert TakenTwice[..7] == TakenTwice;
    ReleasedIsDone(Run(Start, TakenTwice[..6]), TakenTwice[6].request);
  }

  lemma ReleasedIsDone(w: World, q: Request)
    requires AlreadyReleased(w.mem, q)
    ensures Handle(w, q) == (w, Done)
  {
  }
}
