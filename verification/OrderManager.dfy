/** The order manager object: it persists every step before it takes it or transmits it. */
module OrderManager {
  import opened Wrappers
  import opened EventLog
  import opened OrderStates
  import opened Records
  import opened Orders
  import OH = OrderHistory
  import OR = OrderRuns

  class OrderManager {
    const om: string
    const store: SharedLog<Key, Payload>
    var snapshots: map<string, Snapshot>
    var processed: map<string, set<string>>
    var applied: set<nat>
    var nextSeq: nat
    var sent: seq<Sent>

    ghost function State(): World
      reads this, store
    {
      World(om, Memory(snapshots, processed, nextSeq), store.events, sent)
    }

    ghost predicate Valid()
      reads this, store
    {
      Sourced(store.events) && Caught(store.events, applied, (p: Payload) => p.Order?)
    }

    /** The fields are what the log replays to, up to late fills, and what was sent is claimed on the log. */
    ghost predicate Faithful()
      reads this, store
    {
      OR.Good(State())
    }

    constructor Empty(om: string, store: SharedLog<Key, Payload>)
      ensures this.om == om && this.store == store && applied == {} && sent == []
      ensures Memory(snapshots, processed, nextSeq) == Initial
    {
      this.om, this.store := om, store;
      snapshots, processed, applied, nextSeq, sent := map[], map[], {}, 1, [];
    }

    /** Rebuilds a manager from the shared log; null when the history does not replay. */
    static method Construct(om: string, store: SharedLog<Key, Payload>) returns (m: OrderManager?)
      requires Ordered(store.events) && Sourced(store.events)
      ensures m == null <==> Replay(store.events).None?
      ensures m != null ==> fresh(m) && m.store == store && m.Valid()
                            && m.State() == World(om, Replay(store.events).value, store.events, [])
      ensures m != null && OH.Proper(om, store.events) ==> m.Faithful()
    {
      m := new OrderManager.Empty(om, store);
      var i := 0;
      while i < |store.events|
        invariant 0 <= i <= |store.events| && fresh(m) && m.store == store && m.om == om && m.sent == []
        invariant Replay(store.events[..i]) == Some(Memory(m.snapshots, m.processed, m.nextSeq))
        invariant Caught(store.events[..i], m.applied, (p: Payload) => p.Order?)
      {
        var e := store.events[i];
        NextEvent(store.events, i);
        ReplayNext(store.events, i);
        CaughtNext(store.events[..i], e, m.applied, (p: Payload) => p.Order?);
        if e.payload.Order? {
          var ok := m.ApplyEvent(e);
          if !ok {
            ReplayStaysBroken(store.events, i + 1);
            return null;
          }
        }
        i := i + 1;
      }
      assert store.events[..i] == store.events;
    }

    /** Applies one persisted event, once; false is the replay-integrity error. */
    method ApplyEvent(e: Entry) returns (ok: bool)
      requires e.payload.Order?
      modifies this`snapshots, this`processed, this`applied, this`nextSeq
      ensures applied == old(applied) + {e.id}
      ensures e.id in old(applied) ==> ok && Memory(snapshots, processed, nextSeq) == old(Memory(snapshots, processed, nextSeq))
      ensures e.id !in old(applied) ==>
        var before := old(Memory(snapshots, processed, nextSeq));
        && ok == Apply(before, e.payload.order).Some?
        && Memory(snapshots, processed, nextSeq)
        == Apply(before, e.payload.order).GetOr(Bump(before, e.payload.order))
    {
      if e.id in applied { return true; }
      applied := applied + {e.id};
      var r := e.payload.order;
      var number := NumberOf(r);
      if number.Some? && number.value + 1 > nextSeq {
        nextSeq := number.value + 1;
      }
      match r {
        case OrderSubmitted(_, cid, terms) =>
          snapshots := snapshots[cid := Snapshot(Submitted, None, terms, 0.0)];
          if cid !in processed {
            processed := processed[cid := {}];
          }
        case AmendRequested(_, _) =>
        case CancelAllRequested(_) =>
        case StatusUpdate(_, cid, trigger, source, target, exchangeId) =>
          if cid !in snapshots || snapshots[cid].state != source || Next(source, trigger) != Some(target) { return false; }
          var existing := snapshots[cid];
          snapshots := snapshots[cid := existing.(state := target, exchangeId := KnownId(exchangeId, existing.exchangeId))];
        case OrderFilled(cid, trigger, source, target, fillId, quantity) =>
          if cid !in snapshots || snapshots[cid].state != source || Next(source, trigger) != Some(target) { return false; }
          var existing := snapshots[cid];
          processed := processed[cid := (if cid in processed then processed[cid] else {}) + {fillId}];
          snapshots := snapshots[cid := existing.(state := target, filled := existing.filled + quantity)];
        case Amended(cid, newQuantity, newLimit) =>
          if cid !in snapshots { return false; }
          var existing := snapshots[cid];
          var kept := if newQuantity != 0.0 then newQuantity else existing.terms.quantity;
          snapshots := snapshots[cid := existing.(terms := existing.terms.(quantity := kept, limitPrice := newLimit))];
      }
      return true;
    }

    method PersistRecord(key: OrderKey, r: OrderRecord)
      requires Valid()
      modifies this, store
      ensures Valid() && State() == Persist(old(State()), key, r)
    {
      var e := store.Append(Some(ForOrder(key)), Order(r));
      var ok := ApplyEvent(e);
    }

    method NextNumber() returns (n: nat)
      requires Valid()
      modifies this`nextSeq
      ensures Valid() && n == old(nextSeq) && State() == TakeNumber(old(State()))
    {
      n := nextSeq;
      nextSeq := nextSeq + 1;
    }

    method Send(id: string)
      requires Valid()
      modifies this`sent
      ensures Valid() && State() == Transmit(old(State()), id)
    {
      sent := sent + [Sent(|store.events|, id)];
    }

    method Ingest(cid: string, status: Status, exchangeId: Option<string>) returns (out: Outcome)
      requires Valid()
      modifies this, store
      ensures Valid() && (State(), out) == IngestStatus(old(State()), cid, status, exchangeId)
    {
      if cid !in snapshots { return Raised(NotFound); }
      var current, t := snapshots[cid].state, TriggerFor(status);
      if t.None? { return Snap(snapshots[cid]); }
      if Next(current, t.value).Some? {
        PersistRecord(StatusKey(cid, t.value, current),
                      StatusUpdate(None, cid, t.value, current, Next(current, t.value).value, exchangeId));
        return if cid in snapshots then Snap(snapshots[cid]) else Raised(NotFound);
      }
      return if Stale(current, t.value) then Snap(snapshots[cid]) else Raised(Inconsistent);
    }

    method NoteFailure(cid: string, t: Trigger, key: OrderKey) returns (out: Outcome)
      requires Valid()
      modifies this, store
      ensures Valid() && (State(), out) == RecordFailure(old(State()), cid, t, key)
    {
      hide Apply, Next;
      if cid in snapshots {
        var current := snapshots[cid].state;
        if Next(current, t).Some? {
          PersistRecord(key, StatusUpdate(None, cid, t, current, Next(current, t).value, None));
        }
      }
      return Raised(VenueError);
    }

    method Place(terms: Terms, reply: Reply<VenueOrder>) returns (out: Outcome)
      requires Valid()
      modifies this, store
      ensures Valid() && (State(), out) == PlaceOrder(old(State()), terms, reply)
      ensures old(Faithful()) ==> Faithful()
    {
      hide OR.Good;
      FaithfulThrough(State(), Orders.Place(terms, reply));
      var n := NextNumber();
      var cid := MakeId(om, n, "place");
      PersistRecord(SubmitKey(cid), OrderSubmitted(n, cid, terms));
      if !RequestOk(terms) { return Raised(BadRequest); }
      Send(cid);
      match reply {
        case VenueDown => out := NoteFailure(cid, SubmitFailed, SubmitFailedKey(cid));
        case Answer(order) =>
          var status := if order.status.RejectedStatus? then RejectedStatus else AcknowledgedStatus;
          out := Ingest(cid, status, order.exchangeId);
      }
    }

    method Amend(cid: string, quantity: Option<real>, limit: Option<real>, reply: Reply<VenueOrder>) returns (out: Outcome)
      requires Valid()
      modifies this, store
      ensures Valid() && (State(), out) == AmendOrder(old(State()), cid, quantity, limit, reply)
      ensures old(Faithful()) ==> Faithful()
    {
      hide OR.Good;
      FaithfulThrough(State(), Orders.Amend(cid, quantity, limit, reply));
      if quantity.None? && limit.None? { return Raised(BadRequest); }
      if cid !in snapshots { return Raised(NotFound); }
      if snapshots[cid].state !in {Acknowledged, PartiallyFilled} { return Raised(Illegal); }
      if snapshots[cid].exchangeId.None? { return Raised(Inconsistent); }
      var n := NextNumber();
      var rid := MakeId(om, n, "amend");
      PersistRecord(AmendRequestKey(cid, rid), AmendRequested(n, cid));
      Send(rid);
      match reply {
        case VenueDown => out := Raised(VenueError);
        case Answer(order) =>
          PersistRecord(AmendKey(cid, rid), Amended(cid, order.quantity, order.limit));
          out := if cid in snapshots then Snap(snapshots[cid]) else Raised(NotFound);
      }
    }

    method Cancel(cid: string, reply: Reply<VenueOrder>) returns (out: Outcome)
      requires Valid()
      modifies this, store
      ensures Valid() && (State(), out) == CancelOrder(old(State()), cid, reply)
      ensures old(Faithful()) ==> Faithful()
    {
      hide OR.Good;
      FaithfulThrough(State(), Orders.Cancel(cid, reply));
      if cid !in snapshots { return Raised(NotFound); }
      var current := snapshots[cid].state;
      if current == CancelPending { return Snap(snapshots[cid]); }
      if Next(current, CancelRequested).None? { return Raised(Illegal); }
      if snapshots[cid].exchangeId.None? { return Raised(Inconsistent); }
      var n := NextNumber();
      var rid := MakeId(om, n, "cancel");
      PersistRecord(CancelKey(cid, rid),
        StatusUpdate(Some(n), cid, CancelRequested, current, Next(current, CancelRequested).value, None));
      Send(rid);
      match reply {
        case VenueDown => out := NoteFailure(cid, CancelFailed, CancelFailedKey(cid, rid));
        case Answer(order) => out := Ingest(cid, order.status, order.exchangeId);
      }
    }

    method CancelOne(rid: string, order: VenueOrder) returns (done: seq<Snapshot>)
      requires Valid()
      modifies this, store
      ensures Valid() && (State(), done) == CancelListed(old(State()), rid, order)
    {
      var cid := order.cid;
      if cid !in snapshots { return []; }
      var current := snapshots[cid].state;
      if current in {Acknowledged, PartiallyFilled} {
        PersistRecord(CancelAllPendingKey(cid, rid),
                      StatusUpdate(None, cid, CancelRequested, current, CancelPending, None));
      }
      if current in {Acknowledged, PartiallyFilled, CancelPending} {
        PersistRecord(CancelAllConfirmKey(cid, rid),
                      StatusUpdate(None, cid, CancelConfirmed, CancelPending, Cancelled, order.exchangeId));
        return if cid in snapshots then [snapshots[cid]] else [];
      }
      return [];
    }

    method CancelEverything(reply: Reply<seq<VenueOrder>>) returns (out: Outcome)
      requires Valid()
      modifies this, store
      ensures Valid() && (State(), out) == CancelAll(old(State()), reply)
      ensures old(Faithful()) ==> Faithful()
    {
      hide OR.Good;
      FaithfulThrough(State(), Orders.CancelEverything(reply));
      var n := NextNumber();
      var rid := MakeId(om, n, "cancel_all");
      PersistRecord(CancelAllKey(rid), CancelAllRequested(n));
      Send(rid);
      if reply.VenueDown? { return Raised(VenueError); }
      var orders, results: seq<Snapshot> := reply.value, [];
      ghost var start := State();
      var i := 0;
      while i < |orders|
        invariant 0 <= i <= |orders| && Valid()
        invariant (State(), results) == CancelEach(start, rid, orders[..i])
      {
        var done := CancelOne(rid, orders[i]);
        results := results + done;
        assert orders[..i + 1][..i] == orders[..i];
        i := i + 1;
      }
      assert orders[..i] == orders;
      out := Snaps(results);
    }

    method TakeFill(cid: string, fill: Fill) returns (out: Outcome)
      requires Valid()
      modifies this, store
      ensures Valid() && (State(), out) == ReportFill(old(State()), cid, fill)
      ensures old(Faithful()) ==> Faithful()
    {
      hide OR.Good;
      FaithfulThrough(State(), Orders.Fill(cid, fill));
      if cid !in snapshots { return Raised(NotFound); }
      var existing := snapshots[cid];
      var seen := if cid in processed then processed[cid] else {};
      if fill.id in seen { return Snap(existing); }
      if Terminal(existing.state) {
        processed := processed[cid := seen + {fill.id}];
        return Snap(existing);
      }
      var t := if existing.filled + fill.quantity >= existing.terms.quantity then FullFill else PartialFill;
      if Next(existing.state, t).None? { return Raised(Inconsistent); }
      PersistRecord(FillKey(cid, fill.id),
                    OrderFilled(cid, t, existing.state, Next(existing.state, t).value, fill.id, fill.quantity));
      out := if cid in snapshots then Snap(snapshots[cid]) else Raised(NotFound);
    }

    method Resync(cid: string, found: Reply<Option<VenueOrder>>) returns (out: Outcome)
      requires Valid()
      modifies this, store
      ensures Valid() && (State(), out) == ResyncOrder(old(State()), cid, found)
      ensures old(Faithful()) ==> Faithful()
    {
      hide OR.Good;
      FaithfulThrough(State(), Orders.Resync(cid, found));
      if cid !in snapshots { return Raised(NotFound); }
      if snapshots[cid].exchangeId.None? && !RequestOk(snapshots[cid].terms) { return Raised(BadRequest); }
      if found.VenueDown? { return Raised(VenueError); }
      if found.value.None? { return Snap(snapshots[cid]); }
      out := Ingest(cid, found.value.value.status, found.value.value.exchangeId);
    }
  }

  lemma FaithfulThrough(w: World, c: Call)
    ensures OR.Good(w) ==> OR.Good(Do(w, c).0)
  {
    if OR.Good(w) {
      OR.DoKeepsGood(w, c);
    }
  }

  /** One more event of the log. */
  lemma ReplayNext(log: Log, i: nat)
    requires i < |log|
    ensures Replay(log[..i + 1]) ==
      if Replay(log[..i]).Some? && log[i].payload.Order? then Apply(Replay(log[..i]).value, log[i].payload.order)
      else Replay(log[..i])
  {
    var upTo := log[..i + 1];
    assert upTo[..|upTo| - 1] == log[..i] && upTo[|upTo| - 1] == log[i];
  }

  /** Once a history fails to replay, no longer one does. */
  lemma {:induction false} ReplayStaysBroken(log: Log, n: nat)
    requires n <= |log| && Replay(log[..n]).None?
    ensures Replay(log).None?
    decreases |log|
  {
    if n < |log| {
      assert log[..|log| - 1][..n] == log[..n];
      ReplayStaysBroken(log[..|log| - 1], n);
    } else {
      assert log[..n] == log;
    }
  }
}
