/**
 Histories the order manager can write.  Everything here is about any log whose own records
 passed the manager's checks when they were persisted; such a log stays one when it is cut.
 */
module OrderHistory {
  import opened Wrappers
  import opened EventLog
  import opened OrderStates
  import opened Records
  import opened Orders

  /** What the manager checks before it persists a record. */
  predicate Guard(om: string, m: Memory, r: OrderRecord) {
    (NumberOf(r).Some? ==> NumberOf(r).value == m.nextSeq) &&
    match r
    case OrderSubmitted(n, cid, _) => cid == MakeId(om, n, "place") && cid !in m.snapshots
    case StatusUpdate(_, cid, t, source, target, _) =>
      cid in m.snapshots && m.snapshots[cid].state == source && Next(source, t) == Some(target)
      && t != PartialFill && t != FullFill
    case OrderFilled(cid, t, source, target, fillId, quantity) =>
      cid in m.snapshots && m.snapshots[cid].state == source && Next(source, t) == Some(target)
      && fillId !in ProcessedOf(m, cid)
      && t == (if m.snapshots[cid].filled + quantity >= m.snapshots[cid].terms.quantity then FullFill else PartialFill)
    case AmendRequested(_, _) => true
    case CancelAllRequested(_) => true
    case Amended(cid, _, _) => cid in m.snapshots && m.snapshots[cid].state in {Acknowledged, PartiallyFilled}
  }

  lemma GuardedRecordsApply(om: string, m: Memory, r: OrderRecord)
    requires Guard(om, m, r)
    ensures Apply(m, r).Some?
  {
  }

  /** The id a key was minted with. */
  function IdOf(key: OrderKey): string {
    match key
    case SubmitKey(cid) => cid
    case StatusKey(cid, _, _) => cid
    case SubmitFailedKey(cid) => cid
    case FillKey(cid, _) => cid
    case AmendRequestKey(_, rid) => rid
    case AmendKey(_, rid) => rid
    case CancelKey(_, rid) => rid
    case CancelFailedKey(_, rid) => rid
    case CancelAllKey(rid) => rid
    case CancelAllPendingKey(_, rid) => rid
    case CancelAllConfirmKey(_, rid) => rid
  }

  /** Fill records, and no others, are keyed by the fill they record; a status key names its own update. */
  predicate KeyFits(key: OrderKey, r: OrderRecord) {
    && (if r.OrderFilled? then key == FillKey(r.cid, r.fillId) else !key.FillKey?)
    && (key.StatusKey? ==> r.StatusUpdate? && r.cid == key.cid && r.trigger == key.trigger && r.source == key.source)
  }

  ghost predicate Issued(om: string, below: nat, id: string) {
    exists n: nat, s: string :: n < below && id == MakeId(om, n, s)
  }

  ghost predicate ProperEntry(om: string, before: Memory, e: Entry) {
    if e.payload.Order? then
      && Guard(om, before, e.payload.order)
      && e.key.Some? && e.key.value.ForOrder? && KeyFits(e.key.value.orderKey, e.payload.order)
      && Issued(om, Bump(before, e.payload.order).nextSeq, IdOf(e.key.value.orderKey))
    else e.key.Some? ==> !e.key.value.ForOrder?
  }

  ghost predicate Proper(om: string, log: Log)
    ensures Proper(om, log) ==> Replay(log).Some?
  {
    log == [] ||
    var front, e := log[..|log| - 1], log[|log| - 1];
    && Proper(om, front)
    && ProperEntry(om, Replay(front).value, e)
  }

  lemma {:induction false} ProperPrefix(om: string, log: Log, n: nat)
    requires Proper(om, log) && n <= |log|
    ensures Proper(om, log[..n])
    decreases |log|
  {
    if n == |log| {
      assert log[..n] == log;
    } else {
      assert log[..|log| - 1][..n] == log[..n];
      ProperPrefix(om, log[..|log| - 1], n);
    }
  }

  lemma ProperSnoc(om: string, log: Log, e: Entry)
    requires Proper(om, log) && ProperEntry(om, Replay(log).value, e)
    ensures Proper(om, log + [e])
    ensures Replay(log + [e]) == if e.payload.Order? then Apply(Replay(log).value, e.payload.order) else Replay(log)
  {
    assert (log + [e])[..|log|] == log;
  }

  // ---- what never goes back ----

  ghost predicate Later(m: Memory, m': Memory) {
    && m.nextSeq <= m'.nextSeq
    && forall cid :: cid in m.snapshots ==>
         && cid in m'.snapshots
         && Rank(m.snapshots[cid].state) <= Rank(m'.snapshots[cid].state)
         && (Terminal(m.snapshots[cid].state) ==> m'.snapshots[cid] == m.snapshots[cid])
  }

  lemma ApplyIsLater(om: string, m: Memory, r: OrderRecord)
    requires Guard(om, m, r)
    ensures Apply(m, r).Some? && Later(m, Apply(m, r).value)
  {
    if r.StatusUpdate? || r.OrderFilled? {
      EdgeClimbs(r.source, r.trigger);
    }
    hide Next, Rank, Terminal, KnownId, MakeId;
  }

  lemma EdgeClimbs(s: State, t: Trigger)
    requires Next(s, t).Some?
    ensures Rank(s) <= Rank(Next(s, t).value) && !Terminal(s)
    ensures !Terminal(Acknowledged) && !Terminal(PartiallyFilled)
  {
  }

  /**
   Along every history each order's rank only rises, and an order that reached a terminal
   state keeps its snapshot for good, whatever is amended, cancelled or filled afterwards.
   */
  lemma {:induction false} NeverBack(om: string, log: Log, n: nat)
    requires Proper(om, log) && n <= |log|
    ensures Proper(om, log[..n]) && Later(Replay(log[..n]).value, Replay(log).value)
    decreases |log|
  {
    ProperPrefix(om, log, n);
    if n == |log| {
      assert log[..n] == log;
    } else {
      var front, e := log[..|log| - 1], log[|log| - 1];
      assert front[..n] == log[..n];
      NeverBack(om, front, n);
      if e.payload.Order? {
        ApplyIsLater(om, Replay(front).value, e.payload.order);
      }
    }
  }

  /** A venue status ignored as stale is never hidden legal news: no later state would take it. */
  lemma IgnoredForGood(om: string, log: Log, n: nat, cid: string, t: Trigger)
    requires Proper(om, log) && n <= |log|
    requires Proper(om, log[..n]) && cid in Replay(log[..n]).value.snapshots
    requires FromVenue(t) && Stale(Replay(log[..n]).value.snapshots[cid].state, t)
    ensures cid in Replay(log).value.snapshots && Next(Replay(log).value.snapshots[cid].state, t).None?
  {
    NeverBack(om, log, n);
    var s, later := Replay(log[..n]).value.snapshots[cid].state, Replay(log).value.snapshots[cid].state;
    StaleNeverHidesALegalUpdate(s, t, later);
  }

  // ---- sequence numbers and minted ids ----

  lemma {:induction false} NumbersBelow(om: string, log: Log, i: nat)
    requires Proper(om, log) && i < |log| && log[i].payload.Order?
    ensures NumberOf(log[i].payload.order).Some? ==> NumberOf(log[i].payload.order).value < Replay(log).value.nextSeq
    ensures log[i].key.Some? && log[i].key.value.ForOrder?
    ensures Issued(om, Replay(log).value.nextSeq, IdOf(log[i].key.value.orderKey))
  {
    hide Guard, Later, MakeId, Issued;
    var front, e := log[..|log| - 1], log[|log| - 1];
    if i < |log| - 1 {
      assert front[i] == log[i];
      NumbersBelow(om, front, i);
      if e.payload.Order? {
        ApplyIsLater(om, Replay(front).value, e.payload.order);
      }
      IssuedGrows(om, Replay(front).value.nextSeq, Replay(log).value.nextSeq, IdOf(log[i].key.value.orderKey));
    }
  }

  lemma IssuedGrows(om: string, n: nat, n': nat, id: string)
    requires Issued(om, n, id) && n <= n'
    ensures Issued(om, n', id)
  {
    var k: nat, s: string :| k < n && id == MakeId(om, k, s);
    assert k < n';
  }

  /** Along a history the persisted sequence numbers strictly increase. */
  lemma NumbersIncrease(om: string, log: Log, i: nat, j: nat)
    requires Proper(om, log) && i < j < |log| && log[i].payload.Order? && log[j].payload.Order?
    requires NumberOf(log[i].payload.order).Some? && NumberOf(log[j].payload.order).Some?
    ensures NumberOf(log[i].payload.order).value < NumberOf(log[j].payload.order).value
  {
    ProperPrefix(om, log, j + 1);
    var upTo := log[..j + 1];
    assert upTo[..|upTo| - 1] == log[..j] && upTo[|upTo| - 1] == log[j];
    assert log[..j][i] == log[i];
    NumbersBelow(om, log[..j], i);
  }

  lemma {:induction false} OrdersIssued(om: string, log: Log, cid: string)
    requires Proper(om, log) && cid in Replay(log).value.snapshots
    ensures Issued(om, Replay(log).value.nextSeq, cid)
  {
    hide Guard, Apply, Issued, KeyFits;
    var front, e := log[..|log| - 1], log[|log| - 1];
    if cid in Replay(front).value.snapshots {
      OrdersIssued(om, front, cid);
      if e.payload.Order? {
        ApplyIsLater(om, Replay(front).value, e.payload.order);
      }
      IssuedGrows(om, Replay(front).value.nextSeq, Replay(log).value.nextSeq, cid);
    } else {
      NewOrderIsIssued(om, Replay(front).value, e, cid);
    }
  }

  lemma NewOrderIsIssued(om: string, m: Memory, e: Entry, cid: string)
    requires e.payload.Order? && ProperEntry(om, m, e) && Apply(m, e.payload.order).Some?
    requires cid !in m.snapshots && cid in Apply(m, e.payload.order).value.snapshots
    ensures Issued(om, Apply(m, e.payload.order).value.nextSeq, cid)
  {
  }

  // ---- fill conservation ----

  /** A fill that is on the log is one the order remembers. */
  lemma {:induction false} FilledIsProcessed(om: string, log: Log, cid: string, fillId: string)
    requires Proper(om, log) && HasKey(log, ForOrder(FillKey(cid, fillId)))
    ensures fillId in ProcessedOf(Replay(log).value, cid)
  {
    var front, e := log[..|log| - 1], log[|log| - 1];
    if e.key != Some(ForOrder(FillKey(cid, fillId))) {
      FilledIsProcessed(om, front, cid, fillId);
      if e.payload.Order? {
        ProcessedGrows(om, Replay(front).value, e.payload.order, cid);
      }
    }
  }

  lemma ProcessedGrows(om: string, m: Memory, r: OrderRecord, cid: string)
    requires Guard(om, m, r)
    ensures Apply(m, r).Some? && ProcessedOf(m, cid) <= ProcessedOf(Apply(m, r).value, cid)
  {
  }

  /** A fill as the log keeps it. */
  datatype Part = Part(fillId: string, quantity: real)

  /** The fills persisted for one order, oldest first. */
  function Parts(log: Log, cid: string): seq<Part> {
    if log == [] then []
    else
      var before, e := Parts(log[..|log| - 1], cid), log[|log| - 1];
      if e.payload.Order? && e.payload.order.OrderFilled? && e.payload.order.cid == cid
      then before + [Part(e.payload.order.fillId, e.payload.order.quantity)] else before
  }

  function Total(parts: seq<Part>): real {
    if parts == [] then 0.0 else Total(parts[..|parts| - 1]) + parts[|parts| - 1].quantity
  }

  function Ids(parts: seq<Part>): set<string> {
    if parts == [] then {} else Ids(parts[..|parts| - 1]) + {parts[|parts| - 1].fillId}
  }

  /** The fills are distinct, are what the memory remembers, and add up to what it shows. */
  ghost predicate Conserved(m: Memory, parts: seq<Part>, cid: string) {
    && |Ids(parts)| == |parts|
    && ProcessedOf(m, cid) == Ids(parts)
    && (cid !in m.snapshots ==> parts == [])
    && (cid in m.snapshots ==>
         && m.snapshots[cid].filled == Total(parts)
         && (m.snapshots[cid].state == Filled ==> m.snapshots[cid].filled >= m.snapshots[cid].terms.quantity))
  }

  lemma ConservedByFill(om: string, m: Memory, parts: seq<Part>, r: OrderRecord)
    requires r.OrderFilled? && Guard(om, m, r) && Conserved(m, parts, r.cid)
    ensures Apply(m, r).Some? && Conserved(Apply(m, r).value, parts + [Part(r.fillId, r.quantity)], r.cid)
  {
    var all := parts + [Part(r.fillId, r.quantity)];
    assert all[..|parts|] == parts;
  }

  lemma ConservedByOther(om: string, m: Memory, parts: seq<Part>, r: OrderRecord, cid: string)
    requires Guard(om, m, r) && Conserved(m, parts, cid)
    requires r.OrderFilled? ==> r.cid != cid
    ensures Apply(m, r).Some? && Conserved(Apply(m, r).value, parts, cid)
  {
  }

  /**
   On every history an order's filled quantity is the sum over its distinct persisted
   fills, and an order that is filled is filled to at least its (possibly amended) quantity.
   */
  lemma {:induction false} FillsAreConserved(om: string, log: Log, cid: string)
    requires Proper(om, log)
    ensures Conserved(Replay(log).value, Parts(log, cid), cid)
  {
    if log != [] {
      var front, e := log[..|log| - 1], log[|log| - 1];
      FillsAreConserved(om, front, cid);
      if e.payload.Order? {
        var r := e.payload.order;
        if r.OrderFilled? && r.cid == cid {
          ConservedByFill(om, Replay(front).value, Parts(front, cid), r);
        } else {
          ConservedByOther(om, Replay(front).value, Parts(front, cid), r, cid);
        }
      }
    }
  }

  /** A fill an order has taken, and whether it may only reduce, are settled for good. */
  lemma {:induction false} OrderStays(om: string, log: Log, n: nat, cid: string)
    requires Proper(om, log) && n <= |log|
    ensures Proper(om, log[..n]) && ProcessedOf(Replay(log[..n]).value, cid) <= ProcessedOf(Replay(log).value, cid)
    ensures cid in Replay(log[..n]).value.snapshots ==>
              && cid in Replay(log).value.snapshots
              && Replay(log).value.snapshots[cid].terms.reduceOnly == Replay(log[..n]).value.snapshots[cid].terms.reduceOnly
    decreases |log|
  {
    ProperPrefix(om, log, n);
    if n == |log| {
      assert log[..n] == log;
    } else {
      var front, p := log[..|log| - 1], log[|log| - 1].payload;
      assert front[..n] == log[..n];
      OrderStays(om, front, n, cid);
      if p.Order? {
        ProcessedGrows(om, Replay(front).value, p.order, cid);
      }
    }
  }

  /** The order has the fill, or is finished and takes no more. */
  predicate Taken(m: Memory, cid: string, fillId: string) {
    cid in m.snapshots && (fillId in ProcessedOf(m, cid) || Terminal(m.snapshots[cid].state))
  }

  lemma TakenStays(om: string, log: Log, n: nat, cid: string, fillId: string)
    requires Proper(om, log) && n <= |log| && Proper(om, log[..n]) && Taken(Replay(log[..n]).value, cid, fillId)
    ensures var m, m' := Replay(log[..n]).value, Replay(log).value;
            Taken(m', cid, fillId) && m'.snapshots[cid].terms.reduceOnly == m.snapshots[cid].terms.reduceOnly
  {
    OrderStays(om, log, n, cid);
    NeverBack(om, log, n);
  }
}
