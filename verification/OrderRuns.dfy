/**
 Whole runs of the order manager: calls, other writers on the log, restarts, and crashes
 after any of the records a call persists.
 */
module OrderRuns {
  import opened Wrappers
  import opened EventLog
  import opened OrderStates
  import opened Records
  import opened Orders
  import opened OrderHistory

  /**
   Two memories no call can tell apart: they may differ only in which late fills of finished
   orders they remember, for those are never persisted.
   */
  ghost predicate SameView(m: Memory, m': Memory) {
    && m.snapshots == m'.snapshots
    && m.nextSeq == m'.nextSeq
    && forall cid :: !(cid in m.snapshots && Terminal(m.snapshots[cid].state)) ==> ProcessedOf(m, cid) == ProcessedOf(m', cid)
  }

  ghost predicate MintedFrom(om: string, number: nat, id: string) {
    exists suffix :: id == MakeId(om, number, suffix)
  }

  ghost predicate SentAt(om: string, log: Log, s: Sent) {
    && 1 <= s.at <= |log|
    && log[s.at - 1].payload.Order?
    && NumberOf(log[s.at - 1].payload.order).Some?
    && MintedFrom(om, NumberOf(log[s.at - 1].payload.order).value, s.id)
  }

  /** Every transmission follows the record that claimed its number, and no two follow the same. */
  ghost predicate SentOk(om: string, log: Log, sent: seq<Sent>) {
    sent == [] ||
    var front, s := sent[..|sent| - 1], sent[|sent| - 1];
    SentOk(om, log, front) && SentAt(om, log, s) && LastAt(front) < s.at
  }

  /** The log length at the latest transmission. */
  function LastAt(sent: seq<Sent>): nat {
    if sent == [] then 0 else sent[|sent| - 1].at
  }

  ghost predicate Good(w: World) {
    && Ordered(w.log)
    && Proper(w.om, w.log)
    && SameView(w.mem, Replay(w.log).value)
    && SentOk(w.om, w.log, w.sent)
  }

  ghost predicate Extends(w: World, w': World) {
    w'.om == w.om && w.log <= w'.log && w.sent <= w'.sent
  }

  // ---- one persisted record ----

  lemma GuardSame(om: string, m: Memory, m': Memory, r: OrderRecord)
    requires SameView(m, m') && Guard(om, m, r)
    ensures Guard(om, m', r)
  {
  }

  lemma ApplySame(m: Memory, m': Memory, r: OrderRecord)
    requires SameView(m, m')
    requires r.OrderSubmitted? ==> r.cid !in m.snapshots
    ensures Apply(m, r).Some? <==> Apply(m', r).Some?
    ensures Apply(m, r).Some? ==> SameView(Apply(m, r).value, Apply(m', r).value)
  {
    SameProcessed(m, m', r);
  }

  lemma SameProcessed(m: Memory, m': Memory, r: OrderRecord)
    requires SameView(m, m')
    ensures Bump(m, r).nextSeq == Bump(m', r).nextSeq && Bump(m, r).snapshots == m.snapshots && Bump(m', r).snapshots == m'.snapshots
    ensures Bump(m, r).processed == m.processed && Bump(m', r).processed == m'.processed
  {
  }

  lemma KeyKind(om: string, log: Log, i: nat)
    requires Proper(om, log) && i < |log|
    ensures log[i].payload.Order? <==> log[i].key.Some? && log[i].key.value.ForOrder?
  {
    hide Guard, KeyFits, Issued, Bump, IdOf, Replay;
    ProperPrefix(om, log, i + 1);
    var upTo := log[..i + 1];
    assert upTo[|upTo| - 1] == log[i];
  }

  lemma FreshId(om: string, log: Log, key: OrderKey, suffix: string)
    requires Proper(om, log) && IdOf(key) == MakeId(om, Replay(log).value.nextSeq, suffix)
    ensures !HasKey(log, ForOrder(key))
  {
    if HasKey(log, ForOrder(key)) {
      var i := KeyPosition(log, ForOrder(key));
      KeyKind(om, log, i);
      NumbersBelow(om, log, i);
      var n: nat, s: string :| n < Replay(log).value.nextSeq && IdOf(key) == MakeId(om, n, s);
      MakeIdInjective(om, n, s, Replay(log).value.nextSeq, suffix);
      assert false;
    }
  }

  lemma FreshOrder(om: string, log: Log, suffix: string)
    requires Proper(om, log)
    ensures MakeId(om, Replay(log).value.nextSeq, suffix) !in Replay(log).value.snapshots
  {
    var m := Replay(log).value;
    var cid := MakeId(om, m.nextSeq, suffix);
    if cid in m.snapshots {
      OrdersIssued(om, log, cid);
      var n: nat, s: string :| n < m.nextSeq && cid == MakeId(om, n, s);
      MakeIdInjective(om, n, s, m.nextSeq, suffix);
      assert false;
    }
  }

  lemma {:induction false} SentStays(om: string, log: Log, longer: Log, sent: seq<Sent>)
    requires SentOk(om, log, sent) && log <= longer
    ensures SentOk(om, longer, sent) && LastAt(sent) <= |log|
  {
    if sent != [] {
      SentStays(om, log, longer, sent[..|sent| - 1]);
    }
  }

  // ---- one persisted record keeps the world good ----

  /** A record without a number of its own, checked against the memory. */
  ghost predicate PlainOk(w: World, key: OrderKey, r: OrderRecord) {
    Guard(w.om, w.mem, r) && KeyFits(key, r) && NumberOf(r).None? && Issued(w.om, w.mem.nextSeq, IdOf(key))
  }

  /** A record that claims the next number, under a key minted from it. */
  ghost predicate ClaimOk(w: World, key: OrderKey, r: OrderRecord) {
    && Guard(w.om, w.mem, r) && KeyFits(key, r)
    && NumberOf(r) == Some(w.mem.nextSeq) && MintedFrom(w.om, w.mem.nextSeq, IdOf(key))
  }

  /** Claim a number and persist the record. */
  function Claim(w: World, key: OrderKey, r: OrderRecord): World {
    Persist(TakeNumber(w), key, r)
  }

  /** Appending a proper entry and taking over a memory that views it rightly. */
  lemma EntryKeeps(w: World, m: Memory, key: OrderKey, r: OrderRecord)
    requires Good(w) && !HasKey(w.log, ForOrder(key))
    requires Guard(w.om, Replay(w.log).value, r) && KeyFits(key, r)
    requires Issued(w.om, Bump(Replay(w.log).value, r).nextSeq, IdOf(key))
    requires Apply(Replay(w.log).value, r).Some? ==> SameView(m, Apply(Replay(w.log).value, r).value)
    ensures var w' := World(w.om, m, Appended(w.log, Some(ForOrder(key)), Order(r)), w.sent);
            Good(w') && Extends(w, w')
  {
    var e := Event(NextId(w.log), Some(ForOrder(key)), Order(r));
    AppendedKeepsOrder(w.log, Some(ForOrder(key)), Order(r));
    GuardedRecordsApply(w.om, Replay(w.log).value, r);
    ProperSnoc(w.om, w.log, e);
    SentStays(w.om, w.log, w.log + [e], w.sent);
  }

  lemma PersistKeeps(w: World, key: OrderKey, r: OrderRecord)
    requires Good(w) && PlainOk(w, key, r)
    ensures Good(Persist(w, key, r)) && Extends(w, Persist(w, key, r))
  {
    if !HasKey(w.log, ForOrder(key)) {
      GuardSame(w.om, w.mem, Replay(w.log).value, r);
      GuardedRecordsApply(w.om, w.mem, r);
      ApplySame(w.mem, Replay(w.log).value, r);
      EntryKeeps(w, Apply(w.mem, r).value, key, r);
    }
  }

  /** Taking the number first makes no difference to applying the record that carries it. */
  lemma NumberTaken(w: World, r: OrderRecord)
    requires NumberOf(r) == Some(w.mem.nextSeq)
    ensures Apply(TakeNumber(w).mem, r) == Apply(w.mem, r)
  {
  }

  /** Claiming a number: the key is new, so the record is always appended. */
  lemma ClaimKeeps(w: World, key: OrderKey, r: OrderRecord)
    requires Good(w) && ClaimOk(w, key, r)
    ensures !HasKey(w.log, ForOrder(key))
    ensures Good(Claim(w, key, r)) && Extends(w, Claim(w, key, r))
    ensures Claim(w, key, r).sent == w.sent && |Claim(w, key, r).log| == |w.log| + 1
  {
    GuardSame(w.om, w.mem, Replay(w.log).value, r);
    GuardedRecordsApply(w.om, w.mem, r);
    var suffix :| IdOf(key) == MakeId(w.om, w.mem.nextSeq, suffix);
    FreshId(w.om, w.log, key, suffix);
    assert w.mem.nextSeq < Bump(w.mem, r).nextSeq;
    ApplySame(w.mem, Replay(w.log).value, r);
    NumberTaken(w, r);
    EntryKeeps(w, Apply(w.mem, r).value, key, r);
  }

  lemma TransmitKeeps(w: World, key: OrderKey, r: OrderRecord)
    requires Good(w) && ClaimOk(w, key, r)
    ensures Good(Transmit(Claim(w, key, r), IdOf(key))) && Extends(w, Transmit(Claim(w, key, r), IdOf(key)))
  {
    ClaimKeeps(w, key, r);
    var w1 := Claim(w, key, r);
    var w2 := Transmit(w1, IdOf(key));
    SentStays(w.om, w.log, w.log, w.sent);
    assert w1.log[|w.log|].payload == Order(r);
    assert w2.sent[..|w1.sent|] == w1.sent;
  }

  /** Known orders carry issued ids, and the next id is not among them. */
  ghost predicate IdsInOrder(w: World) {
    && (forall cid :: cid in w.mem.snapshots ==> Issued(w.om, w.mem.nextSeq, cid))
    && (forall suffix :: MakeId(w.om, w.mem.nextSeq, suffix) !in w.mem.snapshots)
  }

  lemma GoodIdsInOrder(w: World)
    requires Good(w)
    ensures IdsInOrder(w)
  {
    forall cid | cid in w.mem.snapshots
      ensures Issued(w.om, w.mem.nextSeq, cid)
    {
      OrdersIssued(w.om, w.log, cid);
    }
    forall suffix
      ensures MakeId(w.om, w.mem.nextSeq, suffix) !in w.mem.snapshots
    {
      FreshOrder(w.om, w.log, suffix);
    }
  }

  // ---- every call is made of checked persists and claims ----

  /** A property that every checked persist, claim and transmission keeps. */
  ghost predicate Kept(inv: World -> bool) {
    && (forall w :: inv(w) ==> IdsInOrder(w))
    && KeptByPersist(inv) && KeptByClaim(inv) && KeptByLateFill(inv)
  }

  ghost predicate KeptByPersist(inv: World -> bool) {
    forall w, key, r {:trigger inv(Persist(w, key, r))} :: inv(w) && PlainOk(w, key, r) ==> inv(Persist(w, key, r))
  }

  ghost predicate KeptByClaim(inv: World -> bool) {
    forall w, key, r {:trigger Claim(w, key, r), inv(w)} :: inv(w) && ClaimOk(w, key, r) ==>
      && !HasKey(w.log, ForOrder(key))
      && inv(Claim(w, key, r))
      && inv(Transmit(Claim(w, key, r), IdOf(key)))
  }

  ghost predicate KeptByLateFill(inv: World -> bool) {
    forall w, cid, id {:trigger LateFill(w, cid, id)} ::
      inv(w) && cid in w.mem.snapshots && Terminal(w.mem.snapshots[cid].state) ==> inv(LateFill(w, cid, id))
  }

  lemma IngestKeeps(inv: World -> bool, w: World, cid: string, status: Status, exchangeId: Option<string>)
    requires Kept(inv) && inv(w)
    ensures inv(IngestStatus(w, cid, status, exchangeId).0)
  {
    if cid in w.mem.snapshots && TriggerFor(status).Some? {
      var current, t := w.mem.snapshots[cid].state, TriggerFor(status).value;
      if Next(current, t).Some? {
        assert PlainOk(w, StatusKey(cid, t, current),
                       StatusUpdate(None, cid, t, current, Next(current, t).value, exchangeId));
      }
    }
  }

  lemma FailureKeeps(inv: World -> bool, w: World, cid: string, t: Trigger, key: OrderKey)
    requires Kept(inv) && inv(w) && Issued(w.om, w.mem.nextSeq, IdOf(key)) && (t == SubmitFailed || t == CancelFailed)
    requires key.SubmitFailedKey? || key.CancelFailedKey?
    ensures inv(RecordFailure(w, cid, t, key).0)
  {
    if cid in w.mem.snapshots {
      var current := w.mem.snapshots[cid].state;
      if Next(current, t).Some? {
        assert PlainOk(w, key, StatusUpdate(None, cid, t, current, Next(current, t).value, None));
      }
    }
  }

  lemma ClaimIssues(w: World, key: OrderKey, r: OrderRecord)
    requires ClaimOk(w, key, r) && !HasKey(w.log, ForOrder(key))
    ensures Claim(w, key, r).mem == Apply(w.mem, r).value && Claim(w, key, r).om == w.om
    ensures Issued(w.om, Claim(w, key, r).mem.nextSeq, IdOf(key))
  {
  }

  lemma PlaceKeeps(inv: World -> bool, w: World, cid: string, terms: Terms, reply: Reply<VenueOrder>)
    requires Kept(inv) && inv(w) && cid == MakeId(w.om, w.mem.nextSeq, "place")
    ensures inv(PlaceAs(w, cid, terms, reply).0)
  {
    var key, r := SubmitKey(cid), OrderSubmitted(w.mem.nextSeq, cid, terms);
    assert ClaimOk(w, key, r);
    var w1 := Claim(w, key, r);
    ClaimIssues(w, key, r);
    var w2 := Transmit(w1, cid);
    if RequestOk(terms) {
      if reply.VenueDown? {
        FailureKeeps(inv, w2, cid, SubmitFailed, SubmitFailedKey(cid));
      } else {
        var status := if reply.value.status.RejectedStatus? then RejectedStatus else AcknowledgedStatus;
        IngestKeeps(inv, w2, cid, status, reply.value.exchangeId);
      }
    }
  }

  lemma AmendKeeps(inv: World -> bool, w: World, rid: string, cid: string, reply: Reply<VenueOrder>)
    requires Kept(inv) && inv(w) && MintedFrom(w.om, w.mem.nextSeq, rid)
    requires cid in w.mem.snapshots && w.mem.snapshots[cid].state in {Acknowledged, PartiallyFilled}
    ensures inv(AmendAs(w, rid, cid, reply).0)
  {
    var key, r := AmendRequestKey(cid, rid), AmendRequested(w.mem.nextSeq, cid);
    assert ClaimOk(w, key, r);
    var w1 := Claim(w, key, r);
    ClaimIssues(w, key, r);
    if reply.Answer? {
      assert PlainOk(Transmit(w1, rid), AmendKey(cid, rid), Amended(cid, reply.value.quantity, reply.value.limit));
    }
  }

  lemma CancelKeeps(inv: World -> bool, w: World, rid: string, cid: string, current: State, reply: Reply<VenueOrder>)
    requires Kept(inv) && inv(w) && MintedFrom(w.om, w.mem.nextSeq, rid)
    requires cid in w.mem.snapshots && w.mem.snapshots[cid].state == current && Next(current, CancelRequested).Some?
    ensures inv(CancelAs(w, rid, cid, current, reply).0)
  {
    var key := CancelKey(cid, rid);
    var r := StatusUpdate(Some(w.mem.nextSeq), cid, CancelRequested, current, Next(current, CancelRequested).value, None);
    assert ClaimOk(w, key, r);
    var w1 := Claim(w, key, r);
    ClaimIssues(w, key, r);
    if reply.VenueDown? {
      FailureKeeps(inv, Transmit(w1, rid), cid, CancelFailed, CancelFailedKey(cid, rid));
    } else {
      IngestKeeps(inv, Transmit(w1, rid), cid, reply.value.status, reply.value.exchangeId);
    }
  }

  /** No live order has been taken through the cancel-all request `rid` yet. */
  ghost predicate Untouched(w: World, rid: string) {
    forall cid :: cid in w.mem.snapshots && !Terminal(w.mem.snapshots[cid].state) ==>
      && !HasKey(w.log, ForOrder(CancelAllPendingKey(cid, rid)))
      && !HasKey(w.log, ForOrder(CancelAllConfirmKey(cid, rid)))
  }

  lemma PersistAddsOneKey(w: World, key: OrderKey, r: OrderRecord, other: OrderKey)
    requires key != other && !HasKey(w.log, ForOrder(other))
    ensures !HasKey(Persist(w, key, r).log, ForOrder(other))
  {
  }

  /** A status record under a new key: what it changes, and what it leaves alone. */
  ghost predicate StatusOnly(w: World, w': World, key: OrderKey, cid: string, target: State) {
    && w'.om == w.om && w'.mem.nextSeq == w.mem.nextSeq
    && w'.mem.snapshots.Keys == w.mem.snapshots.Keys
    && cid in w'.mem.snapshots && w'.mem.snapshots[cid].state == target
    && (forall c :: c in w.mem.snapshots && c != cid ==> w'.mem.snapshots[c] == w.mem.snapshots[c])
    && (forall other :: HasKey(w'.log, ForOrder(other)) ==> other == key || HasKey(w.log, ForOrder(other)))
  }

  lemma StatusPersisted(inv: World -> bool, w: World, key: OrderKey, r: OrderRecord)
    requires Kept(inv) && inv(w) && PlainOk(w, key, r) && r.StatusUpdate?
    requires !HasKey(w.log, ForOrder(key))
    ensures inv(Persist(w, key, r)) && StatusOnly(w, Persist(w, key, r), key, r.cid, r.target)
  {
    forall other | other != key && !HasKey(w.log, ForOrder(other))
      ensures !HasKey(Persist(w, key, r).log, ForOrder(other))
    {
      PersistAddsOneKey(w, key, r, other);
    }
  }

  /** A live order taken to cancelled, directly or through pending, leaves the others untouched. */
  lemma UntouchedAfter(w: World, w1: World, w2: World, rid: string, cid: string)
    requires Untouched(w, rid)
    requires w1 == w || StatusOnly(w, w1, CancelAllPendingKey(cid, rid), cid, CancelPending)
    requires StatusOnly(w1, w2, CancelAllConfirmKey(cid, rid), cid, Cancelled)
    ensures Untouched(w2, rid)
  {
  }

  /** From pending to cancelled under a cancel-all request. */
  lemma ConfirmKeeps(inv: World -> bool, w: World, w1: World, rid: string, cid: string, exchangeId: Option<string>)
    requires Kept(inv) && inv(w1) && Issued(w1.om, w1.mem.nextSeq, rid) && Untouched(w, rid)
    requires w1 == w || StatusOnly(w, w1, CancelAllPendingKey(cid, rid), cid, CancelPending)
    requires cid in w1.mem.snapshots && w1.mem.snapshots[cid].state == CancelPending
    requires !HasKey(w1.log, ForOrder(CancelAllConfirmKey(cid, rid)))
    ensures var r := StatusUpdate(None, cid, CancelConfirmed, CancelPending, Cancelled, exchangeId);
            var w2 := Persist(w1, CancelAllConfirmKey(cid, rid), r);
            inv(w2) && w2.om == w1.om && w2.mem.nextSeq == w1.mem.nextSeq && Untouched(w2, rid)
  {
    var r := StatusUpdate(None, cid, CancelConfirmed, CancelPending, Cancelled, exchangeId);
    var key := CancelAllConfirmKey(cid, rid);
    assert PlainOk(w1, key, r);
    StatusPersisted(inv, w1, key, r);
    UntouchedAfter(w, w1, Persist(w1, key, r), rid, cid);
  }

  lemma CancelListedKeeps(inv: World -> bool, w: World, rid: string, order: VenueOrder)
    requires Kept(inv) && inv(w) && Issued(w.om, w.mem.nextSeq, rid) && Untouched(w, rid)
    ensures var w' := CancelListed(w, rid, order).0;
            inv(w') && w'.om == w.om && w'.mem.nextSeq == w.mem.nextSeq && Untouched(w', rid)
  {
    var cid := order.cid;
    if cid in w.mem.snapshots {
      var current := w.mem.snapshots[cid].state;
      if current == CancelPending {
        ConfirmKeeps(inv, w, w, rid, cid, order.exchangeId);
      } else if current in {Acknowledged, PartiallyFilled} {
        var pend := CancelAllPendingKey(cid, rid);
        var pending := StatusUpdate(None, cid, CancelRequested, current, CancelPending, None);
        assert PlainOk(w, pend, pending);
        StatusPersisted(inv, w, pend, pending);
        ConfirmKeeps(inv, w, Persist(w, pend, pending), rid, cid, order.exchangeId);
      }
    }
  }

  lemma {:induction false} CancelEachKeeps(inv: World -> bool, w: World, rid: string, orders: seq<VenueOrder>)
    requires Kept(inv) && inv(w) && Issued(w.om, w.mem.nextSeq, rid) && Untouched(w, rid)
    ensures var w' := CancelEach(w, rid, orders).0;
            inv(w') && w'.om == w.om && w'.mem.nextSeq == w.mem.nextSeq && Untouched(w', rid)
  {
    if orders != [] {
      CancelEachKeeps(inv, w, rid, orders[..|orders| - 1]);
      CancelListedKeeps(inv, CancelEach(w, rid, orders[..|orders| - 1]).0, rid, orders[|orders| - 1]);
    }
  }

  lemma CancelAllKeeps(inv: World -> bool, w: World, rid: string, reply: Reply<seq<VenueOrder>>)
    requires Kept(inv) && inv(w) && MintedFrom(w.om, w.mem.nextSeq, rid)
    ensures inv(CancelAllAs(w, rid, reply).0)
  {
    var key, r := CancelAllKey(rid), CancelAllRequested(w.mem.nextSeq);
    assert ClaimOk(w, key, r);
    var w1 := Claim(w, key, r);
    ClaimIssues(w, key, r);
    if reply.Answer? {
      forall c
        ensures !HasKey(w1.log, ForOrder(CancelAllPendingKey(c, rid)))
        ensures !HasKey(w1.log, ForOrder(CancelAllConfirmKey(c, rid)))
      {
        var a, b := Claim(w, CancelAllPendingKey(c, rid), r), Claim(w, CancelAllConfirmKey(c, rid), r);
        PersistAddsOneKey(TakeNumber(w), key, r, CancelAllPendingKey(c, rid));
        PersistAddsOneKey(TakeNumber(w), key, r, CancelAllConfirmKey(c, rid));
      }
      CancelEachKeeps(inv, Transmit(w1, rid), rid, reply.value);
    }
  }

  lemma FillKeeps(inv: World -> bool, w: World, cid: string, fill: Fill)
    requires Kept(inv) && inv(w)
    ensures inv(ReportFill(w, cid, fill).0)
  {
    if cid in w.mem.snapshots && fill.id !in ProcessedOf(w.mem, cid) && !Terminal(w.mem.snapshots[cid].state) {
      var s := w.mem.snapshots[cid];
      var t := if s.filled + fill.quantity >= s.terms.quantity then FullFill else PartialFill;
      if Next(s.state, t).Some? {
        assert PlainOk(w, FillKey(cid, fill.id),
                       OrderFilled(cid, t, s.state, Next(s.state, t).value, fill.id, fill.quantity));
      }
    }
  }

  /** Whatever the call and whatever the venue answers, a kept property is kept. */
  lemma DoKeeps(inv: World -> bool, w: World, c: Call)
    requires Kept(inv) && inv(w)
    ensures inv(Do(w, c).0)
  {
    match c
    case Place(terms, reply) =>
      PlaceKeeps(inv, w, MakeId(w.om, w.mem.nextSeq, "place"), terms, reply);
    case Amend(cid, quantity, limit, reply) =>
      var rid := MakeId(w.om, w.mem.nextSeq, "amend");
      if cid in w.mem.snapshots && w.mem.snapshots[cid].state in {Acknowledged, PartiallyFilled} {
        AmendKeeps(inv, w, rid, cid, reply);
      }
    case Cancel(cid, reply) =>
      var rid := MakeId(w.om, w.mem.nextSeq, "cancel");
      if cid in w.mem.snapshots && Next(w.mem.snapshots[cid].state, CancelRequested).Some? {
        CancelKeeps(inv, w, rid, cid, w.mem.snapshots[cid].state, reply);
      }
    case CancelEverything(reply) =>
      CancelAllKeeps(inv, w, MakeId(w.om, w.mem.nextSeq, "cancel_all"), reply);
    case Fill(cid, fill) => FillKeeps(inv, w, cid, fill);
    case Update(cid, order) => IngestKeeps(inv, w, cid, order.status, order.exchangeId);
    case Resync(cid, found) =>
      if found.Answer? && found.value.Some? {
        IngestKeeps(inv, w, cid, found.value.value.status, found.value.value.exchangeId);
      }
  }

  // ---- runs ----

  /** The world of a manager rebuilt from the first n events; it knows what was sent by then. */
  function Restarted(w: World, n: nat): World
    requires n <= |w.log|
  {
    World(w.om, Replay(w.log[..n]).GetOr(Initial), w.log[..n], SentUpTo(w.sent, n))
  }

  function SentUpTo(sent: seq<Sent>, n: nat): seq<Sent> {
    if sent == [] || sent[|sent| - 1].at <= n then sent else SentUpTo(sent[..|sent| - 1], n)
  }

  datatype Action =
    | Complete(call: Call)
    | CrashDuring(call: Call, persisted: nat)
    | OtherWriter(key: Option<Key>, payload: Payload)

  ghost predicate Allowed(a: Action) {
    a.OtherWriter? ==> !a.payload.Order? && SameSource(a.key, a.payload)
  }

  function Crashed(w: World, after: World, k: nat): World {
    Restarted(after, if |w.log| + k <= |after.log| then |w.log| + k else |after.log|)
  }

  /** A crash keeps the first `persisted` of the events the call appends, and loses the memory. */
  function Act(w: World, a: Action): World {
    match a
    case Complete(c) => Do(w, c).0
    case CrashDuring(c, k) => Crashed(w, Do(w, c).0, k)
    case OtherWriter(key, payload) => w.(log := Appended(w.log, key, payload))
  }

  function Run(w: World, actions: seq<Action>): World {
    if actions == [] then w
    else Act(Run(w, actions[..|actions| - 1]), actions[|actions| - 1])
  }

  /** Good, and grown out of an earlier world. */
  ghost predicate GoodFrom(w0: World, w: World) {
    Good(w) && Extends(w0, w)
  }

  lemma ClaimKeepsFrom(w0: World, w: World, key: OrderKey, r: OrderRecord)
    requires GoodFrom(w0, w) && ClaimOk(w, key, r)
    ensures !HasKey(w.log, ForOrder(key))
    ensures GoodFrom(w0, Claim(w, key, r)) && GoodFrom(w0, Transmit(Claim(w, key, r), IdOf(key)))
  {
    ClaimKeeps(w, key, r);
    TransmitKeeps(w, key, r);
  }

  lemma PersistKeepsFrom(w0: World, w: World, key: OrderKey, r: OrderRecord)
    requires GoodFrom(w0, w) && PlainOk(w, key, r)
    ensures GoodFrom(w0, Persist(w, key, r))
  {
    PersistKeeps(w, key, r);
  }

  lemma GoodKeptByPersist(w0: World)
    ensures KeptByPersist(w => GoodFrom(w0, w))
  {
    forall w, key, r | GoodFrom(w0, w) && PlainOk(w, key, r)
      ensures GoodFrom(w0, Persist(w, key, r))
    {
      PersistKeepsFrom(w0, w, key, r);
    }
  }

  lemma GoodKeptByClaim(w0: World)
    ensures KeptByClaim(w => GoodFrom(w0, w))
  {
    forall w, key, r | GoodFrom(w0, w) && ClaimOk(w, key, r)
      ensures !HasKey(w.log, ForOrder(key))
      ensures GoodFrom(w0, Claim(w, key, r)) && GoodFrom(w0, Transmit(Claim(w, key, r), IdOf(key)))
    {
      ClaimKeepsFrom(w0, w, key, r);
    }
  }

  lemma GoodKeptByLateFill(w0: World)
    ensures KeptByLateFill(w => GoodFrom(w0, w))
  {
  }

  lemma GoodIsKept(w0: World)
    ensures Kept(w => GoodFrom(w0, w))
  {
    forall w | GoodFrom(w0, w)
      ensures IdsInOrder(w)
    {
      GoodIdsInOrder(w);
    }
    GoodKeptByPersist(w0);
    GoodKeptByClaim(w0);
    GoodKeptByLateFill(w0);
  }

  lemma DoKeepsGood(w: World, c: Call)
    requires Good(w)
    ensures Good(Do(w, c).0) && Extends(w, Do(w, c).0)
  {
    GoodIsKept(w);
    DoKeeps(x => GoodFrom(w, x), w, c);
  }

  lemma {:induction false} SentUpToOk(om: string, log: Log, sent: seq<Sent>, n: nat)
    requires SentOk(om, log, sent) && n <= |log|
    ensures SentOk(om, log[..n], SentUpTo(sent, n)) && SentUpTo(sent, n) <= sent
  {
    if sent != [] {
      if sent[|sent| - 1].at <= n {
        SentWithin(om, log, sent, n);
      } else {
        SentUpToOk(om, log, sent[..|sent| - 1], n);
      }
    }
  }

  lemma {:induction false} SentWithin(om: string, log: Log, sent: seq<Sent>, n: nat)
    requires SentOk(om, log, sent) && LastAt(sent) <= n <= |log|
    ensures SentOk(om, log[..n], sent)
  {
    if sent != [] {
      SentWithin(om, log, sent[..|sent| - 1], n);
    }
  }

  lemma RestartKeepsGood(w: World, n: nat)
    requires Good(w) && n <= |w.log|
    ensures Good(Restarted(w, n))
  {
    PrefixKeepsOrder(w.log, n);
    ProperPrefix(w.om, w.log, n);
    SentUpToOk(w.om, w.log, w.sent, n);
  }

  lemma OtherKeepsGood(w: World, key: Option<Key>, payload: Payload)
    requires Good(w) && !payload.Order? && SameSource(key, payload)
    ensures Good(w.(log := Appended(w.log, key, payload)))
  {
    AppendedKeepsOrder(w.log, key, payload);
    if Appended(w.log, key, payload) != w.log {
      var e := Event(NextId(w.log), key, payload);
      ProperSnoc(w.om, w.log, e);
      SentStays(w.om, w.log, w.log + [e], w.sent);
    }
  }

  lemma ActKeepsGood(w: World, a: Action)
    requires Good(w) && Allowed(a)
    ensures Good(Act(w, a)) && Act(w, a).om == w.om
  {
    match a
    case Complete(c) => DoKeepsGood(w, c);
    case CrashDuring(c, k) => CrashKeepsGood(w, c, k);
    case OtherWriter(key, payload) => OtherKeepsGood(w, key, payload);
  }

  lemma CrashKeepsGood(w: World, c: Call, k: nat)
    requires Good(w)
    ensures Good(Crashed(w, Do(w, c).0, k)) && Crashed(w, Do(w, c).0, k).om == w.om
  {
    DoKeepsGood(w, c);
    CrashedIsGood(w, Do(w, c).0, k);
  }

  lemma CrashedIsGood(w: World, after: World, k: nat)
    requires Good(after)
    ensures Good(Crashed(w, after, k)) && Crashed(w, after, k).om == after.om
  {
    RestartKeepsGood(after, if |w.log| + k <= |after.log| then |w.log| + k else |after.log|);
  }

  /**
   Over any run of calls, other writers and crashes after any persisted record: the log
   replays without an integrity error, the replay shows the live orders and the live next
   number, and the two memories differ at most in late fills of finished orders.
   */
  lemma {:induction false} RunIsGood(om: string, actions: seq<Action>)
    requires forall i :: 0 <= i < |actions| ==> Allowed(actions[i])
    ensures var w := Run(World(om, Initial, [], []), actions);
            Good(w) && w.om == om && Replay(w.log).Some? && SameView(w.mem, Replay(w.log).value)
  {
    if actions != [] {
      RunIsGood(om, actions[..|actions| - 1]);
      ActKeepsGood(Run(World(om, Initial, [], []), actions[..|actions| - 1]), actions[|actions| - 1]);
    }
  }

  /** No id is ever handed to the venue twice, across calls, crashes and restarts. */
  lemma IdsAreNeverReused(om: string, actions: seq<Action>, i: nat, j: nat)
    requires forall k :: 0 <= k < |actions| ==> Allowed(actions[k])
    requires i < j < |Run(World(om, Initial, [], []), actions).sent|
    ensures var sent := Run(World(om, Initial, [], []), actions).sent; sent[i].id != sent[j].id
  {
    var w := Run(World(om, Initial, [], []), actions);
    RunIsGood(om, actions);
    SentInOrder(om, w.log, w.sent, i, j);
    var ri, rj := w.log[w.sent[i].at - 1].payload.order, w.log[w.sent[j].at - 1].payload.order;
    NumbersIncrease(om, w.log, w.sent[i].at - 1, w.sent[j].at - 1);
    var si :| w.sent[i].id == MakeId(om, NumberOf(ri).value, si);
    var sj :| w.sent[j].id == MakeId(om, NumberOf(rj).value, sj);
    if w.sent[i].id == w.sent[j].id {
      MakeIdInjective(om, NumberOf(ri).value, si, NumberOf(rj).value, sj);
      assert false;
    }
  }

  lemma {:induction false} SentInOrder(om: string, log: Log, sent: seq<Sent>, i: nat, j: nat)
    requires SentOk(om, log, sent) && i < j < |sent|
    ensures SentAt(om, log, sent[i]) && SentAt(om, log, sent[j]) && sent[i].at < sent[j].at
  {
    var front := sent[..|sent| - 1];
    if j < |sent| - 1 {
      SentInOrder(om, log, front, i, j);
    } else if i < |sent| - 2 {
      SentInOrder(om, log, front, i, |sent| - 2);
    } else {
      assert front[|front| - 1] == sent[i];
      assert SentOk(om, log, front) && front != [];
    }
  }

  lemma ActExtends(w: World, a: Action)
    requires Good(w) && Allowed(a)
    ensures w.log <= Act(w, a).log
  {
    match a
    case Complete(c) => DoKeepsGood(w, c);
    case CrashDuring(c, k) => DoKeepsGood(w, c);
    case OtherWriter(key, payload) => AppendedKeepsOrder(w.log, key, payload);
  }

  lemma {:induction false} RunExtends(w: World, actions: seq<Action>)
    requires Good(w) && forall i :: 0 <= i < |actions| ==> Allowed(actions[i])
    ensures Good(Run(w, actions)) && w.log <= Run(w, actions).log && Run(w, actions).om == w.om
  {
    if actions != [] {
      var before := Run(w, actions[..|actions| - 1]);
      RunExtends(w, actions[..|actions| - 1]);
      ActKeepsGood(before, actions[|actions| - 1]);
      ActExtends(before, actions[|actions| - 1]);
    }
  }

  /**
   From any point of any run to any later point, crashes included: no order is lost, ranks
   only rise, finished orders keep their snapshot, and filled quantities are the sums over
   the distinct fills on the log.
   */
  lemma OrdersNeverGoBack(w: World, actions: seq<Action>, cid: string)
    requires Good(w) && forall i :: 0 <= i < |actions| ==> Allowed(actions[i])
    ensures var w' := Run(w, actions);
      && Later(w.mem, w'.mem)
      && (cid in w'.mem.snapshots ==>
            && |Ids(Parts(w'.log, cid))| == |Parts(w'.log, cid)|
            && w'.mem.snapshots[cid].filled == Total(Parts(w'.log, cid))
            && (w'.mem.snapshots[cid].state == Filled ==>
                  w'.mem.snapshots[cid].filled >= w'.mem.snapshots[cid].terms.quantity))
  {
    RunExtends(w, actions);
    var w' := Run(w, actions);
    NeverBack(w.om, w'.log, |w.log|);
    assert w'.log[..|w.log|] == w.log;
    FillsAreConserved(w.om, w'.log, cid);
  }
}
