/** Every step of the engine leaves a trail: what it persists is backed by the venue's fills. */
module TrailRuns {
  import opened Wrappers
  import opened EventLog
  import opened Records
  import opened Accounting
  import opened AccountingRuns
  import opened AccountingHealing
  import opened ExitHealing
  import opened CrashHealing
  import opened EngineRuns
  import opened FillTrail
  import opened SyncHealing
  import OH = OrderHistory
  import OR = OrderRuns
  import O = Orders
  import PS = PositionStates
  import P = Positions
  import PH = PositionHistory
  import PR = PositionRuns
  import L = Portfolio

  /** The venue's fills in the order it reports them, and the positions whose money is watched. */
  datatype Watch = Watch(om: string, fills: seq<Fill>, who: set<string>)

  /** No watched position is closed without its release following at once. */
  predicate Tidy(log: Log, who: set<string>) {
    forall pid :: pid in who ==> ReleasedAtOnce(log, pid) && !EndsInClose(log, pid)
  }

  ghost predicate Tracked(d: Desk, c: Watch) {
    && Sound(d) && OH.Proper(c.om, d.log) && Venue(c.fills) && Trail(d.log, c.fills, c.who) && Tidy(d.log, c.who)
    && (c.who != {} ==> d.leverage > 0.0)
  }

  /** What was added for one fill records no entry but that fill. */
  predicate AddedFor(log: Log, longer: Log, f: Fill) {
    log <= longer && forall i :: |log| <= i < |longer| && longer[i].payload.Position? && longer[i].payload.position.EntryFill? ==>
      longer[i].payload.position.fillId == f.id
  }

  lemma AddedOn(a: Log, b: Log, c: Log, f: Fill)
    requires AddedFor(a, b, f) && AddedFor(b, c, f)
    ensures AddedFor(a, c, f)
  {
  }

  lemma TidySnoc(log: Log, e: Entry, who: set<string>)
    requires Tidy(log, who) && forall pid :: pid in who ==> !IsClose(e, pid)
    ensures Tidy(log + [e], who)
  {
  }

  /** One more event that has its backing and is no close. */
  lemma StepIsTracked(d: Desk, d': Desk, c: Watch)
    requires Tracked(d, c) && OneStep(d, d')
    requires |d'.log| == |d.log| + 1 ==>
               Backed(d.log, d'.log[|d.log|], c.fills, c.who) && forall pid :: pid in c.who ==> !IsClose(d'.log[|d.log|], pid)
    ensures Tracked(d', c)
  {
    OrdersPassOver(c.om, d.log, d'.log);
    if d'.log != d.log {
      var e := d'.log[|d.log|];
      assert d'.log == d.log + [e];
      TrailSnoc(d.log, e, c.fills, c.who);
      TidySnoc(d.log, e, c.who);
    }
  }

  // ---- requests to the ledger ----

  predicate Watched(q: L.Request, who: set<string>) {
    Whose(L.RecordOf(q)).Some? && Whose(L.RecordOf(q)).value in who
  }

  lemma AskIsTracked(d: Desk, q: L.Request, c: Watch, f: Fill)
    requires Tracked(d, c) && (Watched(q, c.who) ==> LedgerBacked(d.log, L.KeyOf(q), L.RecordOf(q), c.fills))
    ensures Tracked(Ask(d, q).0, c) && AddedFor(d.log, Ask(d, q).0.log, f)
    ensures Ask(d, q).0.positions == d.positions && Books(Ask(d, q).0.log) == Books(d.log)
  {
    AskSteps(d, q);
    StepIsTracked(d, Ask(d, q).0, c);
  }

  lemma TakeIsTracked(d: Desk, pid: string, f: Fill, c: Watch)
    requires Tracked(d, c) && AliveOn(d.log, pid)
    ensures var d2 := TakeMargin(d, pid, f).0;
      Tracked(d2, c) && AddedFor(d.log, d2.log, f) && Books(d2.log) == Books(d.log) && d2.leverage == d.leverage
  {
    var reserve, allocate := L.Reserve(pid, Margin(d, f), f.id), L.Allocate(pid, Margin(d, f), f.id);
    var d1 := Ask(d, reserve).0;
    AskIsTracked(d, reserve, c, f);
    AskIsTracked(d1, allocate, c, f);
    AddedOn(d.log, d1.log, Ask(d1, allocate).0.log, f);
  }

  lemma MarginIsPositive(d: Desk, f: Fill)
    requires d.leverage > 0.0 && f.price > 0.0
    ensures Margin(d, f) > 0.0
  {
    var notional := f.quantity * f.price;
    assert notional > 0.0;
    assert notional / d.leverage > 0.0;
  }

  lemma PositiveMarginBooks(d: Desk, pid: string, f: Fill)
    requires Margin(d, f) > 0.0
    ensures BookMargin(d, pid, f).0 == BookFee(TakeMargin(d, pid, f).0, pid, f)
  {
  }

  lemma FeeIsTracked(d: Desk, pid: string, f: Fill, c: Watch)
    requires Tracked(d, c) && f in c.fills && (pid in c.who ==> HasKey(d.log, EntryOf(pid)(f.id)))
    ensures var d' := BookFee(d, pid, f);
      && Tracked(d', c) && AddedFor(d.log, d'.log, f) && Books(d'.log) == Books(d.log)
      && (f.fee > 0.0 ==> HasKey(d'.log, FeeOf(pid)(f.id)))
  {
    if f.fee > 0.0 {
      AskIsTracked(d, L.BookFee(pid, f.id, f.fee), c, f);
      DoneIsOnLog(d, L.BookFee(pid, f.id, f.fee));
    }
  }

  lemma MarginIsTracked(d: Desk, pid: string, f: Fill, c: Watch)
    requires Tracked(d, c) && f in c.fills && AliveOn(d.log, pid) && (pid in c.who ==> HasKey(d.log, EntryOf(pid)(f.id)))
    ensures var d' := BookMargin(d, pid, f).0;
      && Tracked(d', c) && AddedFor(d.log, d'.log, f)
      && (pid in c.who && f.fee > 0.0 ==> HasKey(d'.log, FeeOf(pid)(f.id)))
  {
    hide Tracked, AddedFor, Margin, TakeMargin, BookFee, AliveOn;
    var d2 := TakeMargin(d, pid, f).0;
    TakeIsTracked(d, pid, f, c);
    TrackedVenue(d, c, f);
    if pid in c.who {
      AddedKeepsKeys(d.log, d2.log, f, EntryOf(pid)(f.id));
      MarginIsPositive(d, f);
      PositiveMarginBooks(d, pid, f);
      FeeIsTracked(d2, pid, f, c);
      AddedOn(d.log, d2.log, BookFee(d2, pid, f).log, f);
    } else if BookMargin(d, pid, f).0 != d2 {
      FeeIsTracked(d2, pid, f, c);
      AddedOn(d.log, d2.log, BookFee(d2, pid, f).log, f);
    }
  }

  lemma TrackedVenue(d: Desk, c: Watch, f: Fill)
    requires Tracked(d, c) && f in c.fills
    ensures f.price > 0.0 && (c.who != {} ==> d.leverage > 0.0)
  {
  }

  lemma AddedKeepsKeys(log: Log, longer: Log, f: Fill, key: Key)
    requires AddedFor(log, longer, f) && HasKey(log, key)
    ensures HasKey(longer, key)
  {
    KeyStays(log, longer, key);
  }

  // ---- entry fills ----

  /** The fill is new to the position, and its order is one that may open. */
  predicate MayEnter(d: Desk, pid: string, f: Fill) {
    Lookup(d.mapped, f.cid) == Some(pid) && ReduceOnly(d.log, f.cid) == Some(false) && OrderTook(d.log, f)
  }

  lemma TouchIsTracked(d: Desk, pid: string, f: Fill, c: Watch)
    requires Tracked(d, c) && f in c.fills && Pending(d, pid, f) && MayEnter(d, pid, f)
    ensures var d1 := Touch(d, pid, f);
      && Tracked(d1, c) && AddedFor(d.log, d1.log, f) && Pending(d1, pid, f) && MayEnter(d1, pid, f)
      && d1.positions.snapshots[pid].state != PS.New
  {
    TouchSteps(d, pid, f);
    StepIsTracked(d, Touch(d, pid, f), c);
    OrdersPassOver(c.om, d.log, Touch(d, pid, f).log);
  }

  lemma EnterEvent(d: Desk, pid: string, f: Fill)
    requires Sound(d) && Pending(d, pid, f) && d.positions.snapshots[pid].state != PS.New
    ensures var log := Enter(d, pid, f).log;
      && |log| == |d.log| + 1 && log[|d.log|].key == Some(EntryOf(pid)(f.id)) && log[|d.log|].payload.Position?
      && var r := log[|d.log|].payload.position;
         r.EntryFill? && r.pid == pid && r.fillId == f.id && r.price == f.price && r.quantity == f.quantity && r.fee == f.fee
  {
    var s := d.positions.snapshots[pid];
    var t := if s.filled + f.quantity >= s.terms.intended then PS.EntryComplete else PS.EntryPartial;
    var r := EntryFill(pid, t, s.state, PS.Next(s.state, t).value, f.id, f.price, f.quantity, f.fee);
    PositionWorldIsGood(d);
    PR.PersistIsFresh(PositionWorld(d), r);
    PersistSteps(d, r);
  }

  lemma EnterIsTracked(d: Desk, pid: string, f: Fill, c: Watch)
    requires Tracked(d, c) && f in c.fills && Pending(d, pid, f) && MayEnter(d, pid, f) && d.positions.snapshots[pid].state != PS.New
    ensures var d1 := Enter(d, pid, f);
      && Tracked(d1, c) && AddedFor(d.log, d1.log, f) && AliveOn(d1.log, pid) && HasKey(d1.log, EntryOf(pid)(f.id))
  {
    assert Sound(d);
    hide Enter, Tracked, Backed, OneStep, Sound;
    EnterSteps(d, pid, f);
    EnterEvent(d, pid, f);
    EnterIsBacked(d, pid, f, c);
    StepIsTracked(d, Enter(d, pid, f), c);
    EnterIsAlive(d, Enter(d, pid, f), pid);
  }

  lemma EnterIsBacked(d: Desk, pid: string, f: Fill, c: Watch)
    requires Sound(d) && f in c.fills && Pending(d, pid, f) && MayEnter(d, pid, f) && d.positions.snapshots[pid].state != PS.New
    ensures |Enter(d, pid, f).log| == |d.log| + 1 && Backed(d.log, Enter(d, pid, f).log[|d.log|], c.fills, c.who)
  {
    hide Enter, ReduceOnly, OrderTook, Lookup;
    EnterEvent(d, pid, f);
    assert EntersWith(d.log, Enter(d, pid, f).log[|d.log|].payload.position, f);
  }

  lemma EnterIsAlive(d: Desk, d1: Desk, pid: string)
    requires OneStep(d, d1) && pid in d1.positions.snapshots && d1.positions.snapshots[pid].state in {PS.PartiallyFilled, PS.FullyFilled}
    ensures AliveOn(d1.log, pid) && d.log <= d1.log
  {
  }

  /** Presented, and recorded by a live position, an entry fill has its fee on the ledger. */
  predicate FeePaid(log: Log, f: Fill, who: set<string>) {
    forall pid :: pid in who && f.fee > 0.0 && HasKey(log, EntryOf(pid)(f.id)) && AliveOn(log, pid) ==> HasKey(log, FeeOf(pid)(f.id))
  }

  lemma PaidWhereMapped(d: Desk, pid: string, f: Fill, c: Watch)
    requires Tracked(d, c) && f in c.fills && Lookup(d.mapped, f.cid) == Some(pid)
    requires pid in c.who && f.fee > 0.0 && HasKey(d.log, EntryOf(pid)(f.id)) && AliveOn(d.log, pid) ==> HasKey(d.log, FeeOf(pid)(f.id))
    ensures FeePaid(d.log, f, c.who)
  {
    forall p | p in c.who && HasKey(d.log, EntryOf(p)(f.id))
      ensures p == pid
    {
      EntryIsMapped(c.om, d.pm, d.log, c.fills, c.who, p, f);
    }
  }

  lemma IntoIsTracked(d: Desk, pid: string, f: Fill, c: Watch)
    requires Tracked(d, c) && f in c.fills && MayEnter(d, pid, f)
    ensures var d' := BookInto(d, pid, f).0;
      Tracked(d', c) && AddedFor(d.log, d'.log, f) && FeePaid(d'.log, f, c.who)
  {
    hide Tracked, AddedFor, BookInto, BookMargin, Touch, Enter, FeePaid, Venue, ReduceOnly, Lookup, AliveOn;
    var d' := BookInto(d, pid, f).0;
    IntoFollowsTracked(d, pid, f, c);
    if Pending(d, pid, f) {
      PendingFillBooks(d, pid, f);
      TouchIsTracked(d, pid, f, c);
      var d1 := Touch(d, pid, f);
      var d2 := Enter(d1, pid, f);
      EnterIsTracked(d1, pid, f, c);
      MarginIsTracked(d2, pid, f, c);
      AddedOn(d.log, d1.log, d2.log, f);
      AddedOn(d.log, d2.log, d'.log, f);
    } else if pid in d.positions.snapshots && f.id in P.ProcessedOf(d.positions, pid) {
      TakenFillBooksMargin(d, pid, f);
      TakenIsTracked(d, pid, f, c);
    } else {
      UntakenFillStops(d, pid, f);
      UntakenHasNoEntry(d, pid, f, c);
      NothingAdded(d.log, f);
    }
    PaidWhereMapped(d', pid, f, c);
  }

  lemma NothingAdded(log: Log, f: Fill)
    ensures AddedFor(log, log, f)
  {
  }

  lemma IntoFollowsTracked(d: Desk, pid: string, f: Fill, c: Watch)
    requires Tracked(d, c) && MayEnter(d, pid, f)
    ensures Sound(d) && Lookup(BookInto(d, pid, f).0.mapped, f.cid) == Some(pid)
  {
    IntoFollows(d, pid, f);
  }

  lemma TakenIsTracked(d: Desk, pid: string, f: Fill, c: Watch)
    requires Tracked(d, c) && f in c.fills && MayEnter(d, pid, f)
    requires pid in d.positions.snapshots && f.id in P.ProcessedOf(d.positions, pid)
    ensures var d' := if Dead(d.positions.snapshots[pid].state) then d else BookMargin(d, pid, f).0;
      && Tracked(d', c) && AddedFor(d.log, d'.log, f)
      && (pid in c.who && f.fee > 0.0 && HasKey(d'.log, EntryOf(pid)(f.id)) && AliveOn(d'.log, pid) ==> HasKey(d'.log, FeeOf(pid)(f.id)))
  {
    if !Dead(d.positions.snapshots[pid].state) {
      TakenIsEntry(c.om, d.pm, d.log, c.fills, c.who, pid, f);
      MarginIsTracked(d, pid, f, c);
    }
  }

  lemma UntakenHasNoEntry(d: Desk, pid: string, f: Fill, c: Watch)
    requires Tracked(d, c) && !(pid in d.positions.snapshots && f.id in P.ProcessedOf(d.positions, pid))
    ensures !HasKey(d.log, EntryOf(pid)(f.id))
  {
    if HasKey(d.log, EntryOf(pid)(f.id)) {
      PH.RecordedIsProcessed(d.pm, d.log, EntryKey(pid, f.id));
      assert false;
    }
  }

  /** Events that need no backing: a new position, and the records of the accounting itself. */
  predicate Neutral(e: Entry) {
    SameSource(e.key, e.payload) && (e.payload.Accounting? || (e.payload.Position? && e.payload.position.Created?))
  }

  lemma NeutralIsBacked(before: Log, e: Entry, c: Watch)
    requires Neutral(e)
    ensures Backed(before, e, c.fills, c.who) && forall pid :: !IsClose(e, pid)
  {
  }

  lemma NeutralStep(d: Desk, d': Desk, c: Watch, f: Fill)
    requires Tracked(d, c) && OneStep(d, d') && |d'.log| == |d.log| + 1 && Neutral(d'.log[|d.log|])
    ensures Tracked(d', c) && AddedFor(d.log, d'.log, f) && O.Replay(d'.log) == O.Replay(d.log)
  {
    hide Backed, Trail, Tidy, Venue, Sound, OH.Proper, O.Replay, Neutral;
    NeutralIsBacked(d.log, d'.log[|d.log|], c);
    StepIsTracked(d, d', c);
    OrdersPassOver(c.om, d.log, d'.log);
    NeutralIsNoEntry(d'.log[|d.log|]);
  }

  lemma NeutralIsNoEntry(e: Entry)
    requires Neutral(e)
    ensures e.payload.Position? ==> !e.payload.position.EntryFill?
  {
  }

  lemma CreateIsTracked(d: Desk, f: Fill, intended: real, c: Watch)
    requires Tracked(d, c) && Creates(d, f, intended)
    ensures var dc := Create(d, f, intended);
      Tracked(dc, c) && AddedFor(d.log, dc.log, f) && O.Replay(dc.log) == O.Replay(d.log) && Lookup(dc.mapped, f.cid).None?
  {
    assert f.cid in d.levels && Sound(d);
    hide Create, BookInto, BookEntry, Tracked, Sound, AddedFor, Lookup, Distance;
    CreationBooks(d, f, intended);
    CreatedEvent(d, f, intended);
    NeutralStep(d, Create(d, f, intended), c, f);
  }

  lemma MapIsTracked(d: Desk, pid: string, f: Fill, c: Watch)
    requires Tracked(d, c) && Lookup(d.mapped, f.cid).None?
    ensures var dm := MapOrder(d, f.cid, pid);
      && Tracked(dm, c) && AddedFor(d.log, dm.log, f) && O.Replay(dm.log) == O.Replay(d.log)
      && Lookup(dm.mapped, f.cid) == Some(pid)
  {
    assert Sound(d);
    hide MapOrder, Tracked, Sound, AddedFor, Lookup;
    MapSteps(d, f.cid, pid);
    NeutralStep(d, MapOrder(d, f.cid, pid), c, f);
  }

  lemma CreationIsTracked(d: Desk, f: Fill, intended: real, c: Watch)
    requires Tracked(d, c) && Creates(d, f, intended) && ReduceOnly(d.log, f.cid) == Some(false) && OrderTook(d.log, f)
    ensures var dm := MapOrder(Create(d, f, intended), f.cid, NewPid(d));
      && Tracked(dm, c) && AddedFor(d.log, dm.log, f) && MayEnter(dm, NewPid(d), f)
      && BookEntry(d, f, intended) == BookInto(dm, NewPid(d), f)
  {
    assert f.cid in d.levels && Sound(d);
    hide Create, MapOrder, BookInto, BookEntry, Tracked, Sound, Creates, AddedFor, Lookup, OH.Taken;
    var dc := Create(d, f, intended);
    CreationBooks(d, f, intended);
    CreateIsTracked(d, f, intended, c);
    MapIsTracked(dc, NewPid(d), f, c);
    AddedOn(d.log, dc.log, MapOrder(dc, f.cid, NewPid(d)).log, f);
  }

  lemma CreatedEvent(d: Desk, f: Fill, intended: real)
    requires Sound(d) && Creates(d, f, intended)
    ensures var log := Create(d, f, intended).log;
      |log| == |d.log| + 1 && log[|d.log|].payload.Position? && log[|d.log|].payload.position.Created?
      && log[|d.log|].key.Some? && log[|d.log|].key.value.ForPosition?
  {
    CreateSteps(d, TermsFor(f, intended, d.levels[f.cid]));
  }

  lemma EntryIsTracked(d: Desk, f: Fill, intended: real, c: Watch)
    requires Tracked(d, c) && f in c.fills && ReduceOnly(d.log, f.cid) == Some(false) && OrderTook(d.log, f)
    ensures var d' := BookEntry(d, f, intended).0;
      Tracked(d', c) && AddedFor(d.log, d'.log, f) && FeePaid(d'.log, f, c.who)
  {
    assert Creates(d, f, intended) ==> f.cid in d.levels;
    hide Tracked, AddedFor, FeePaid, BookInto, ReduceOnly, Creates, BookEntry;
    if Lookup(d.mapped, f.cid).Some? {
      MappedBooks(d, f, intended);
      IntoIsTracked(d, Lookup(d.mapped, f.cid).value, f, c);
    } else if Creates(d, f, intended) {
      var dm := MapOrder(Create(d, f, intended), f.cid, NewPid(d));
      CreationIsTracked(d, f, intended, c);
      IntoIsTracked(dm, NewPid(d), f, c);
      AddedOn(d.log, dm.log, BookEntry(d, f, intended).0.log, f);
    } else {
      NothingCreated(d, f, intended);
      NothingAdded(d.log, f);
      UnmappedHasNoEntry(d, f, c);
    }
  }

  lemma MappedBooks(d: Desk, f: Fill, intended: real)
    requires Lookup(d.mapped, f.cid).Some?
    ensures BookEntry(d, f, intended) == BookInto(d, Lookup(d.mapped, f.cid).value, f)
  {
  }

  lemma UnmappedHasNoEntry(d: Desk, f: Fill, c: Watch)
    requires Tracked(d, c) && f in c.fills && Lookup(d.mapped, f.cid).None?
    ensures FeePaid(d.log, f, c.who)
  {
    forall p | p in c.who && HasKey(d.log, EntryOf(p)(f.id))
      ensures false
    {
      EntryIsMapped(c.om, d.pm, d.log, c.fills, c.who, p, f);
    }
  }

  // ---- exit fills ----

  /** The fills presented so far in this pass. */
  predicate FeesUpTo(log: Log, c: Watch, k: nat)
    requires k <= |c.fills|
  {
    forall i :: 0 <= i < k ==> FeePaid(log, c.fills[i], c.who)
  }

  lemma NoOtherEntry(pm: string, log: Log, longer: Log, f: Fill, pid: string, id: string)
    requires PH.Proper(pm, longer) && AddedFor(log, longer, f) && id != f.id && HasKey(longer, EntryOf(pid)(id))
    ensures HasKey(log, EntryOf(pid)(id))
  {
    var i := KeyPosition(longer, EntryOf(pid)(id));
    PH.ProperPrefix(pm, longer, i + 1);
    var upTo := longer[..i + 1];
    assert upTo[|upTo| - 1] == longer[i];
    HasKeyAt(log, EntryOf(pid)(id), i);
  }

  lemma PaidStays(pm: string, log: Log, longer: Log, f: Fill, g: Fill, who: set<string>)
    requires PH.Proper(pm, longer) && AddedFor(log, longer, f) && g.id != f.id && FeePaid(log, g, who)
    ensures FeePaid(longer, g, who)
  {
    hide PH.Proper;
    forall pid | pid in who && g.fee > 0.0 && HasKey(longer, EntryOf(pid)(g.id)) && AliveOn(longer, pid)
      ensures HasKey(longer, FeeOf(pid)(g.id))
    {
      NoOtherEntry(pm, log, longer, f, pid, g.id);
      assert longer[..|log|] == log;
      PH.ProperPrefix(pm, longer, |log|);
      PH.RecordedIsProcessed(pm, log, EntryKey(pid, g.id));
      if DeadOn(log, pid) {
        DeadForGood(pm, longer, |log|, pid);
      }
      KeyStays(log, longer, FeeOf(pid)(g.id));
    }
  }

  lemma PaidUpToStays(pm: string, log: Log, longer: Log, c: Watch, k: nat)
    requires Venue(c.fills) && k < |c.fills| && PH.Proper(pm, longer) && AddedFor(log, longer, c.fills[k]) && FeesUpTo(log, c, k)
    ensures FeesUpTo(longer, c, k)
  {
    forall i | 0 <= i < k
      ensures FeePaid(longer, c.fills[i], c.who)
    {
      PaidStays(pm, log, longer, c.fills[k], c.fills[i], c.who);
    }
  }

  predicate MayClose(d: Desk, pid: string, f: Fill) {
    Lookup(d.mapped, f.cid) == Some(pid) && ReduceOnly(d.log, f.cid) == Some(true)
  }

  lemma AttributionIsTracked(d: Desk, f: Fill, c: Watch)
    requires Tracked(d, c) && Target(d, f).Some? && ReduceOnly(d.log, f.cid) == Some(true)
    ensures var dm := Attributed(d, f);
      && Tracked(dm, c) && AddedFor(d.log, dm.log, f) && MayClose(dm, Target(d, f).value, f)
      && BookExit(d, f) == CloseInto(dm, Target(d, f).value, f)
  {
    AttributedSteps(d, f);
    if Lookup(d.mapped, f.cid).None? {
      MapIsTracked(d, Target(d, f).value, f, c);
    } else {
      NothingAdded(d.log, f);
    }
  }

  lemma TrancheIsTracked(d: Desk, pid: string, f: Fill, c: Watch)
    requires Tracked(d, c) && f in c.fills && MayClose(d, pid, f) && pid in d.positions.snapshots
    ensures var x := Tranche(d, pid, f);
      && Tracked(x, c) && AddedFor(d.log, x.log, f) && MayClose(x, pid, f) && x.positions == d.positions
      && (d.positions.snapshots[pid].avg.Some? ==> HasKey(x.log, RealizedOf(pid)(f.id)))
  {
    var s := d.positions.snapshots[pid];
    TrancheSteps(d, pid, f);
    if s.avg.Some? {
      var q := L.BookPnl(pid, f.id, Realized(s.terms.side, s.avg.value, f));
      RealizedIsEarned(s.terms.side, s.avg.value, f);
      assert RealizedBy(d.log, pid, q.amount, f);
      AskIsTracked(d, q, c, f);
      DoneIsOnLog(d, q);
      OrdersPassOver(c.om, d.log, Ask(d, q).0.log);
    }
  }

  lemma CloseEvent(x: Desk, pid: string, f: Fill)
    requires Sound(x) && Closable(x, pid, f)
    ensures var log := Closed(x, pid, f).log;
      |log| == |x.log| + 1 && IsClose(log[|x.log|], pid) && log[|x.log|].payload.position.trigger == PS.Close
      && log[|x.log|].key == Some(ForPosition(ExitKey(pid, f.id)))
  {
    var s := x.positions.snapshots[pid];
    var r := Exit(pid, PS.Close, s.state, PS.Closed, f.id, P.NewLeg(s, f, P.LegReason(PS.Close, s.state, Reason)));
    PositionWorldIsGood(x);
    PR.PersistIsFresh(PositionWorld(x), r);
    PersistSteps(x, r);
  }

  /** A close of a live position whose entries are all charged, and the release that follows it. */
  predicate CloseIsDue(x: Desk, pid: string, f: Fill, c: Watch) {
    pid in c.who && Closable(x, pid, f) && InTurn(x.log, c.fills, pid) ==> FeesUp(x.log, c.fills, pid)
  }

  lemma ClosedTrail(x: Desk, pid: string, f: Fill, c: Watch)
    requires Tracked(x, c) && Closable(x, pid, f) && CloseIsDue(x, pid, f, c)
    ensures var y := Closed(x, pid, f);
      && OneStep(x, y) && |y.log| == |x.log| + 1 && IsClose(y.log[|x.log|], pid)
      && OH.Proper(c.om, y.log) && Trail(y.log, c.fills, c.who) && DeadOn(y.log, pid)
  {
    ClosePersists(x, pid, f);
    CloseEvent(x, pid, f);
    var y := Closed(x, pid, f);
    OrdersPassOver(c.om, x.log, y.log);
    assert y.log == x.log + [y.log[|x.log|]];
    TrailSnoc(x.log, y.log[|x.log|], c.fills, c.who);
  }

  /** What the release after a close appends. */
  lemma ReleaseEvent(x: Desk, pid: string, f: Fill, c: Watch)
    requires Tracked(x, c) && Closable(x, pid, f) && !Dead(x.positions.snapshots[pid].state) && CloseIsDue(x, pid, f, c)
    ensures var y, z := Closed(x, pid, f), Finish(x, pid, f).0;
      && OneStep(y, z)
      && (z.log != y.log ==> z.log == y.log + [Event(NextId(y.log), Some(ForPortfolio(ReleaseKey(pid, "close:" + pid))), Portfolio(Released(pid)))])
      && (pid in c.who ==> z.log != y.log)
  {
    ClosedTrail(x, pid, f, c);
    ClosePersists(x, pid, f);
    var y := Closed(x, pid, f);
    AskSteps(y, L.Release(pid, "close:" + pid));
    if pid in c.who {
      UnreleasedUntilDead(x.pm, x.log, c.fills, c.who, pid);
      CloseEvent(x, pid, f);
      assert y.log[..|x.log|] == x.log;
    }
  }

  lemma TidyAfterClose(log: Log, closed: Log, longer: Log, pid: string, who: set<string>)
    requires Tidy(log, who) && |closed| == |log| + 1 && |longer| == |log| + 2 && log <= closed <= longer
    requires IsClose(closed[|log|], pid) && longer[|closed|].payload == Portfolio(Released(pid))
    ensures Tidy(longer, who)
  {
    assert longer[|log|] == closed[|log|];
    forall p | p in who
      ensures ReleasedAtOnce(longer, p) && !EndsInClose(longer, p)
    {
      assert ReleasedAtOnce(log, p) && !EndsInClose(log, p);
      forall i | 0 <= i < |longer| - 1 && IsClose(longer[i], p)
        ensures longer[i + 1].payload == Portfolio(Released(p))
      {
        assert i < |log| ==> IsClose(log[i], p);
      }
    }
  }

  lemma ReleaseIsBacked(before: Log, e: Entry, pid: string, c: Watch)
    requires e.payload == Portfolio(Released(pid)) && e.key == Some(ForPortfolio(ReleaseKey(pid, "close:" + pid))) && DeadOn(before, pid)
    ensures Backed(before, e, c.fills, c.who)
  {
  }

  lemma TidyAfterOtherClose(log: Log, close: Entry, pid: string, who: set<string>)
    requires Tidy(log, who) && IsClose(close, pid) && pid !in who
    ensures Tidy(log + [close], who)
  {
    TidySnoc(log, close, who);
  }

  lemma CloseIsTracked(x: Desk, pid: string, f: Fill, c: Watch)
    requires Tracked(x, c) && Closable(x, pid, f) && !Dead(x.positions.snapshots[pid].state) && CloseIsDue(x, pid, f, c)
    ensures var z := Finish(x, pid, f).0; Tracked(z, c) && AddedFor(x.log, z.log, f)
  {
    assert Tidy(x.log, c.who);
    hide Finish, Closable, CloseIsDue, Tidy, Tracked, Trail, Sound, OH.Proper, Backed, DeadOn, NextId;
    ClosedTrail(x, pid, f, c);
    ReleaseEvent(x, pid, f, c);
    var y, z := Closed(x, pid, f), Finish(x, pid, f).0;
    OrdersPassOver(c.om, y.log, z.log);
    FollowsOn(x, y, z);
    assert y.log == x.log + [y.log[|x.log|]];
    if z.log != y.log {
      var e := z.log[|y.log|];
      assert z.log == y.log + [e];
      ReleaseIsBacked(y.log, e, pid, c);
      TrailSnoc(y.log, e, c.fills, c.who);
      TidyAfterClose(x.log, y.log, z.log, pid, c.who);
    } else {
      TidyAfterOtherClose(x.log, y.log[|x.log|], pid, c.who);
    }
    StillTracked(x, z, c);
  }

  lemma StillTracked(x: Desk, z: Desk, c: Watch)
    requires Tracked(x, c) && Follows(x, z) && OH.Proper(c.om, z.log) && Trail(z.log, c.fills, c.who) && Tidy(z.log, c.who)
    ensures Tracked(z, c)
  {
  }

  lemma FinishIsTracked(x: Desk, pid: string, f: Fill, c: Watch)
    requires Tracked(x, c) && f in c.fills && MayClose(x, pid, f)
    requires pid in x.positions.snapshots && !Dead(x.positions.snapshots[pid].state) && CloseIsDue(x, pid, f, c)
    ensures var z := Finish(x, pid, f).0; Tracked(z, c) && AddedFor(x.log, z.log, f)
  {
    if Closable(x, pid, f) {
      CloseIsTracked(x, pid, f, c);
    } else {
      if f.id in P.ProcessedOf(x.positions, pid) {
        TakenIsEntry(c.om, x.pm, x.log, c.fills, c.who, pid, f);
        assert false;
      }
      CloseStands(x, pid, f);
      NothingAdded(x.log, f);
    }
  }

  lemma TrancheMakesDue(d: Desk, pid: string, c: Watch, k: nat)
    requires Tracked(d, c) && k < |c.fills| && FeesUpTo(d.log, c, k) && MayClose(d, pid, c.fills[k])
    requires pid in d.positions.snapshots && !Dead(d.positions.snapshots[pid].state)
    ensures CloseIsDue(Tranche(d, pid, c.fills[k]), pid, c.fills[k], c)
  {
    var f := c.fills[k];
    var x := Tranche(d, pid, f);
    TrancheIsTracked(d, pid, f, c);
    PaidUpToStays(d.pm, d.log, x.log, c, k);
    TrancheSteps(d, pid, f);
    if pid in c.who && Closable(x, pid, f) && InTurn(x.log, c.fills, pid) {
      forall g | g in c.fills && g.fee > 0.0 && HasKey(x.log, EntryOf(pid)(g.id))
        ensures HasKey(x.log, FeeOf(pid)(g.id))
      {
        var i :| 0 <= i < |c.fills| && c.fills[i] == g;
        assert i < k;
        assert FeePaid(x.log, c.fills[i], c.who);
      }
    }
  }

  lemma ClosingIsTracked(d: Desk, pid: string, c: Watch, k: nat)
    requires Tracked(d, c) && k < |c.fills| && FeesUpTo(d.log, c, k) && MayClose(d, pid, c.fills[k])
    ensures var d' := CloseInto(d, pid, c.fills[k]).0; Tracked(d', c) && AddedFor(d.log, d'.log, c.fills[k])
  {
    var f := c.fills[k];
    hide Tracked, AddedFor, FeesUpTo, MayClose, CloseIsDue, Finish, BookPnl;
    if pid in d.positions.snapshots {
      var x := Tranche(d, pid, f);
      TrancheIsTracked(d, pid, f, c);
      if Completes(d, pid, f) {
        TrancheMakesDue(d, pid, c, k);
        FinishIsTracked(x, pid, f, c);
        AddedOn(d.log, x.log, Finish(x, pid, f).0.log, f);
      }
    } else {
      NothingAdded(d.log, f);
    }
  }

  lemma ExitHasNoEntry(d: Desk, d': Desk, f: Fill, c: Watch)
    requires Tracked(d, c) && Tracked(d', c) && d.log <= d'.log && f in c.fills && ReduceOnly(d.log, f.cid) == Some(true)
    ensures FeePaid(d'.log, f, c.who)
  {
    assert d'.log[..|d.log|] == d.log;
    KindStays(c.om, d'.log, |d.log|, f.cid);
    forall pid | pid in c.who && HasKey(d'.log, EntryOf(pid)(f.id)) && AliveOn(d'.log, pid)
      ensures false
    {
      PH.RecordedIsProcessed(d'.pm, d'.log, EntryKey(pid, f.id));
      TakenIsEntry(c.om, d'.pm, d'.log, c.fills, c.who, pid, f);
    }
  }

  lemma ExitIsTracked(d: Desk, c: Watch, k: nat)
    requires Tracked(d, c) && k < |c.fills| && FeesUpTo(d.log, c, k) && ReduceOnly(d.log, c.fills[k].cid) == Some(true)
    ensures var d' := BookExit(d, c.fills[k]).0;
      Tracked(d', c) && AddedFor(d.log, d'.log, c.fills[k]) && FeePaid(d'.log, c.fills[k], c.who)
  {
    var f := c.fills[k];
    hide AddedFor, FeesUpTo, FeePaid, CloseInto, FindOpen, Venue;
    if Target(d, f).Some? {
      var dm := Attributed(d, f);
      AttributionIsTracked(d, f, c);
      PaidUpToStays(d.pm, d.log, dm.log, c, k);
      ClosingIsTracked(dm, Target(d, f).value, c, k);
      AddedOn(d.log, dm.log, BookExit(d, f).0.log, f);
    } else {
      NothingAdded(d.log, f);
    }
    AddedIsLonger(d.log, BookExit(d, f).0.log, f);
    ExitHasNoEntry(d, BookExit(d, f).0, f, c);
  }

  lemma AddedIsLonger(log: Log, longer: Log, f: Fill)
    requires AddedFor(log, longer, f)
    ensures log <= longer
  {
  }

  // ---- one booking, one pass ----

  ghost predicate EngineTracked(e: Engine, c: Watch) {
    EngineSound(e) && e.om == c.om && Tracked(e.desk, c)
  }

  lemma BookIsTracked(d: Desk, c: Watch, k: nat, terms: Terms)
    requires Tracked(d, c) && k < |c.fills| && FeesUpTo(d.log, c, k) && ReduceOnly(d.log, c.fills[k].cid) == Some(terms.reduceOnly)
    requires OrderTook(d.log, c.fills[k])
    ensures var d' := Book(d, c.fills[k], terms).0; Tracked(d', c) && FeesUpTo(d'.log, c, k + 1)
  {
    var f := c.fills[k];
    var d' := Book(d, f, terms).0;
    hide AddedFor, FeePaid, BookEntry, BookExit, Venue, ReduceOnly, Tracked, Tidy, Trail, OrderTook, FeesUpTo;
    if terms.reduceOnly {
      ExitIsTracked(d, c, k);
    } else {
      EntryIsTracked(d, f, terms.quantity, c);
    }
    OneMorePaid(d, d', c, k);
  }

  lemma OneMorePaid(d: Desk, d': Desk, c: Watch, k: nat)
    requires Tracked(d', c) && k < |c.fills| && AddedFor(d.log, d'.log, c.fills[k])
    requires FeesUpTo(d.log, c, k) && FeePaid(d'.log, c.fills[k], c.who)
    ensures FeesUpTo(d'.log, c, k + 1)
  {
    PaidUpToStays(d'.pm, d.log, d'.log, c, k);
  }

  lemma ReportIsTracked(e: Engine, c: Watch, k: nat)
    requires EngineTracked(e, c) && k < |c.fills| && FeesUpTo(e.desk.log, c, k)
    ensures var (w, out) := Reported(e, c.fills[k]);
            var d := e.desk.(log := w.log);
      && Tracked(d, c) && FeesUpTo(d.log, c, k)
      && (out.Snap? ==> ReduceOnly(d.log, c.fills[k].cid) == Some(out.snapshot.terms.reduceOnly) && OrderTook(d.log, c.fills[k]))
  {
    var f := c.fills[k];
    var (w, out) := Reported(e, f);
    ReportSteps(e, f);
    ReportAppends(e, f);
    OrderEventIsTracked(e.desk, w.log, f, c);
    var d := e.desk.(log := w.log);
    PaidUpToStays(d.pm, e.desk.log, d.log, c, k);
    if out.Snap? {
      ReportTakes(e, f);
    }
  }

  lemma OrderEventIsTracked(d: Desk, log: Log, f: Fill, c: Watch)
    requires Tracked(d, c) && Sound(d.(log := log)) && OH.Proper(c.om, log)
    requires log == d.log || exists entry: Entry :: entry.payload.Order? && SameSource(entry.key, entry.payload) && log == d.log + [entry]
    ensures Tracked(d.(log := log), c) && AddedFor(d.log, log, f)
  {
    if log != d.log {
      var entry: Entry :| entry.payload.Order? && SameSource(entry.key, entry.payload) && log == d.log + [entry];
      TrailSnoc(d.log, entry, c.fills, c.who);
      TidySnoc(d.log, entry, c.who);
    }
  }

  lemma BookOneIsTracked(e: Engine, c: Watch, k: nat)
    requires EngineTracked(e, c) && k < |c.fills| && FeesUpTo(e.desk.log, c, k)
    ensures var e' := BookOne(e, c.fills[k]).0; EngineTracked(e', c) && FeesUpTo(e'.desk.log, c, k + 1)
  {
    var f := c.fills[k];
    hide Tracked, Book, FeePaid, ReduceOnly, O.ReportFill;
    BookOneKeeps(e, f);
    ReportIsTracked(e, c, k);
    var (w, out) := Reported(e, f);
    ReportAppends(e, f);
    if out.Snap? {
      BookIsTracked(e.desk.(log := w.log), c, k, out.snapshot.terms);
    } else {
      RefusedHasNoEntry(e, c, k);
    }
  }

  /** A fill the order ledger refuses is of no order that has an entry on record. */
  lemma RefusedHasNoEntry(e: Engine, c: Watch, k: nat)
    requires EngineTracked(e, c) && k < |c.fills| && !Reported(e, c.fills[k]).1.Snap?
    ensures FeePaid(e.desk.log, c.fills[k], c.who)
  {
    var f := c.fills[k];
    forall pid | pid in c.who && HasKey(e.desk.log, EntryOf(pid)(f.id))
      ensures false
    {
      EntryIsMapped(c.om, e.desk.pm, e.desk.log, c.fills, c.who, pid, f);
      TakenReportsNothing(e, f);
    }
  }

  /** A pass over the first `k` of the venue's fills. */
  lemma {:induction false} PassIsTracked(e: Engine, c: Watch, k: nat)
    requires EngineTracked(e, c) && k <= |c.fills|
    ensures var e' := BookAll(e, c.fills[..k]).0; EngineTracked(e', c) && FeesUpTo(e'.desk.log, c, k)
  {
    if k > 0 {
      var upTo := c.fills[..k];
      assert upTo[..|upTo| - 1] == c.fills[..k - 1] && upTo[|upTo| - 1] == c.fills[k - 1];
      PassIsTracked(e, c, k - 1);
      BookOneIsTracked(BookAll(e, c.fills[..k - 1]).0, c, k - 1);
    }
  }

  // ---- whole runs ----

  /** A pass sees the venue's fills up to some point; requests leave the margin, profit and fees of the watched positions alone. */
  predicate Fair(s: Step, c: Watch) {
    match s
    case SyncFills(fetched) => fetched.Answer? ==> fetched.value <= c.fills
    case Request(q) => Watched(q, c.who) ==> q.BookFunding?
    case _ => true
  }

  lemma {:induction false} TidyPassesOver(log: Log, longer: Log, who: set<string>)
    requires Tidy(log, who) && log <= longer && forall i :: |log| <= i < |longer| ==> !longer[i].payload.Position?
    ensures Tidy(longer, who)
    decreases |longer|
  {
    if |longer| > |log| {
      var front := longer[..|longer| - 1];
      TidyPassesOver(log, front, who);
      TidySnoc(front, longer[|longer| - 1], who);
      assert front + [longer[|longer| - 1]] == longer;
    } else {
      assert longer == log;
    }
  }

  lemma TradeIsTracked(e: Engine, call: O.Call, c: Watch)
    requires EngineTracked(e, c)
    ensures EngineTracked(Do(e, Trade(call)), c)
  {
    var w0 := OrderWorld(e);
    TradeIsKept(w0);
    OR.DoKeeps(w => TradedFrom(w0, w), w0, call);
    TradeKeeps(e, call);
    var longer := Do(e, Trade(call)).desk.log;
    TrailPassesOver(e.desk.log, longer, c.fills, c.who);
    TidyPassesOver(e.desk.log, longer, c.who);
  }

  lemma LevelsAreTracked(d: Desk, x: Execution, c: Watch)
    requires Tracked(d, c)
    ensures Tracked(RecordLevels(d, x), c)
  {
    RecordLevelsSteps(d, x);
    StepIsTracked(d, RecordLevels(d, x), c);
  }

  lemma {:induction false} AllLevelsAreTracked(d: Desk, xs: seq<Execution>, c: Watch)
    requires Tracked(d, c)
    ensures Tracked(RecordAllLevels(d, xs), c)
  {
    if xs != [] {
      AllLevelsAreTracked(d, xs[..|xs| - 1], c);
      LevelsAreTracked(RecordAllLevels(d, xs[..|xs| - 1]), xs[|xs| - 1], c);
    }
  }

  lemma RequestIsTracked(d: Desk, q: L.Request, c: Watch)
    requires Tracked(d, c) && Fair(Request(q), c)
    ensures Tracked(Ask(d, q).0, c)
  {
    AskSteps(d, q);
    StepIsTracked(d, Ask(d, q).0, c);
  }

  lemma DoIsTracked(e: Engine, s: Step, c: Watch)
    requires EngineTracked(e, c) && Fair(s, c)
    ensures EngineTracked(Do(e, s), c) && e.desk.log <= Do(e, s).desk.log
  {
    hide Tracked;
    DoKeeps(e, s);
    DoKeepsNames(e, s);
    match s
    case Trade(call) => TradeIsTracked(e, call, c);
    case Execute(xs) => AllLevelsAreTracked(e.desk, xs, c);
    case SyncFills(fetched) =>
      if fetched.Answer? {
        assert fetched.value == c.fills[..|fetched.value|];
        PassIsTracked(e, c, |fetched.value|);
      }
    case Request(q) => RequestIsTracked(e.desk, q, c);
  }

  /** The crash did not come between the close of a watched position and the release of its margin. */
  predicate Spared(log: Log, who: set<string>) {
    forall pid :: pid in who ==> !EndsInClose(log, pid)
  }

  lemma TidyPrefix(log: Log, n: nat, who: set<string>)
    requires Tidy(log, who) && n <= |log| && Spared(log[..n], who)
    ensures Tidy(log[..n], who)
  {
    forall pid | pid in who
      ensures ReleasedAtOnce(log[..n], pid)
    {
      assert ReleasedAtOnce(log, pid);
    }
  }

  lemma NewProcessIsTracked(e: Engine, log: Log, n: nat, c: Watch)
    requires LogSound(e.desk.pm, log) && OH.Proper(c.om, log) && e.om == c.om && n <= |log|
    requires Venue(c.fills) && Trail(log, c.fills, c.who) && Tidy(log, c.who) && (c.who != {} ==> e.desk.leverage > 0.0)
    requires Spared(log[..n], c.who)
    ensures EngineTracked(NewProcess(e, log[..n]), c)
  {
    RestartKeeps(e.(desk := e.desk.(closed := map[], counted := {})), log, n);
    OH.ProperPrefix(c.om, log, n);
    TrailPrefix(log, n, c.fills, c.who);
    TidyPrefix(log, n, c.who);
  }

  lemma ActIsTracked(e: Engine, a: Action, c: Watch)
    requires EngineTracked(e, c) && Fair(a.step, c) && (a.CrashDuring? ==> Spared(Act(e, a).desk.log, c.who))
    ensures EngineTracked(Act(e, a), c)
  {
    hide Do, Trail, Tidy, Venue;
    DoIsTracked(e, a.step, c);
    DoKeepsNames(e, a.step);
    if a.CrashDuring? {
      var after := Do(e, a.step).desk.log;
      var n := if |e.desk.log| + a.persisted <= |after| then |e.desk.log| + a.persisted else |after|;
      NewProcessIsTracked(e, after, n, c);
    }
  }

  /** Every step is fair, and no crash comes between a watched close and its release. */
  predicate FairRun(e: Engine, actions: seq<Action>, c: Watch) {
    actions == [] ||
    var front, a := actions[..|actions| - 1], actions[|actions| - 1];
    FairRun(e, front, c) && Fair(a.step, c) && (a.CrashDuring? ==> Spared(Run(e, actions).desk.log, c.who))
  }

  /** Over runs of any steps, with passes over growing histories and crashes anywhere else, all is backed by the venue's fills. */
  lemma {:induction false} RunIsTracked(pm: string, leverage: Leverage, actions: seq<Action>, c: Watch)
    requires Venue(c.fills) && (c.who != {} ==> leverage > 0.0) && FairRun(Empty(c.om, pm, leverage), actions, c)
    ensures EngineTracked(Run(Empty(c.om, pm, leverage), actions), c)
  {
    if actions == [] {
      RunIsSound(c.om, pm, leverage, []);
    } else {
      RunIsTracked(pm, leverage, actions[..|actions| - 1], c);
      ActIsTracked(Run(Empty(c.om, pm, leverage), actions[..|actions| - 1]), actions[|actions| - 1], c);
    }
  }
}
