/**
 A rebuilt order manager is indistinguishable from the live one: late fills of finished
 orders are lost with the memory, and no later answer depends on them.
 */
module OrderRestart {
  import opened Wrappers
  import opened EventLog
  import opened OrderStates
  import opened Records
  import opened Orders
  import opened OrderHistory
  import opened OrderRuns

  ghost predicate Twins(w: World, v: World) {
    w.om == v.om && w.log == v.log && w.sent == v.sent && SameView(w.mem, v.mem)
  }

  /** The same answer, and worlds that are still twins. */
  ghost predicate Alike(a: (World, Outcome), b: (World, Outcome)) {
    Twins(a.0, b.0) && a.1 == b.1
  }

  lemma PersistAlike(w: World, v: World, key: OrderKey, r: OrderRecord)
    requires Twins(w, v) && (r.OrderSubmitted? ==> r.cid !in w.mem.snapshots)
    ensures Twins(Persist(w, key, r), Persist(v, key, r))
  {
    ApplySame(w.mem, v.mem, r);
  }

  lemma IngestAlike(w: World, v: World, cid: string, status: Status, exchangeId: Option<string>)
    requires Twins(w, v)
    ensures Alike(IngestStatus(w, cid, status, exchangeId), IngestStatus(v, cid, status, exchangeId))
  {
    if cid in w.mem.snapshots && TriggerFor(status).Some? {
      var current, t := w.mem.snapshots[cid].state, TriggerFor(status).value;
      if Next(current, t).Some? {
        PersistAlike(w, v, StatusKey(cid, t, current), StatusUpdate(None, cid, t, current, Next(current, t).value, exchangeId));
      }
    }
  }

  lemma FailureAlike(w: World, v: World, cid: string, t: Trigger, key: OrderKey)
    requires Twins(w, v)
    ensures Alike(RecordFailure(w, cid, t, key), RecordFailure(v, cid, t, key))
  {
    if cid in w.mem.snapshots {
      var current := w.mem.snapshots[cid].state;
      if Next(current, t).Some? {
        PersistAlike(w, v, key, StatusUpdate(None, cid, t, current, Next(current, t).value, None));
      }
    }
  }

  lemma ClaimAlike(w: World, v: World, key: OrderKey, r: OrderRecord)
    requires Twins(w, v) && (r.OrderSubmitted? ==> r.cid !in w.mem.snapshots)
    ensures Twins(Claim(w, key, r), Claim(v, key, r))
    ensures Twins(Transmit(Claim(w, key, r), IdOf(key)), Transmit(Claim(v, key, r), IdOf(key)))
  {
    PersistAlike(TakeNumber(w), TakeNumber(v), key, r);
  }

  lemma PlaceAlike(w: World, v: World, cid: string, terms: Terms, reply: Reply<VenueOrder>)
    requires Twins(w, v) && cid !in w.mem.snapshots
    ensures Alike(PlaceAs(w, cid, terms, reply), PlaceAs(v, cid, terms, reply))
  {
    var key, r := SubmitKey(cid), OrderSubmitted(w.mem.nextSeq, cid, terms);
    ClaimAlike(w, v, key, r);
    if RequestOk(terms) {
      var w2, v2 := Transmit(Claim(w, key, r), cid), Transmit(Claim(v, key, r), cid);
      if reply.VenueDown? {
        FailureAlike(w2, v2, cid, SubmitFailed, SubmitFailedKey(cid));
      } else {
        var status := if reply.value.status.RejectedStatus? then RejectedStatus else AcknowledgedStatus;
        IngestAlike(w2, v2, cid, status, reply.value.exchangeId);
      }
    }
  }

  lemma AmendAlike(w: World, v: World, rid: string, cid: string, reply: Reply<VenueOrder>)
    requires Twins(w, v)
    ensures Alike(AmendAs(w, rid, cid, reply), AmendAs(v, rid, cid, reply))
  {
    var key, r := AmendRequestKey(cid, rid), AmendRequested(w.mem.nextSeq, cid);
    ClaimAlike(w, v, key, r);
    if reply.Answer? {
      PersistAlike(Transmit(Claim(w, key, r), rid), Transmit(Claim(v, key, r), rid), AmendKey(cid, rid),
                   Amended(cid, reply.value.quantity, reply.value.limit));
    }
  }

  lemma CancelAlike(w: World, v: World, rid: string, cid: string, current: State, reply: Reply<VenueOrder>)
    requires Twins(w, v) && Next(current, CancelRequested).Some?
    ensures Alike(CancelAs(w, rid, cid, current, reply), CancelAs(v, rid, cid, current, reply))
  {
    var key := CancelKey(cid, rid);
    var r := StatusUpdate(Some(w.mem.nextSeq), cid, CancelRequested, current, Next(current, CancelRequested).value, None);
    ClaimAlike(w, v, key, r);
    var w2, v2 := Transmit(Claim(w, key, r), rid), Transmit(Claim(v, key, r), rid);
    if reply.VenueDown? {
      FailureAlike(w2, v2, cid, CancelFailed, CancelFailedKey(cid, rid));
    } else {
      IngestAlike(w2, v2, cid, reply.value.status, reply.value.exchangeId);
    }
  }

  lemma CancelListedAlike(w: World, v: World, rid: string, order: VenueOrder)
    requires Twins(w, v)
    ensures Twins(CancelListed(w, rid, order).0, CancelListed(v, rid, order).0)
    ensures CancelListed(w, rid, order).1 == CancelListed(v, rid, order).1
  {
    var cid := order.cid;
    if cid in w.mem.snapshots && w.mem.snapshots[cid].state in {Acknowledged, PartiallyFilled, CancelPending} {
      var current := w.mem.snapshots[cid].state;
      var pend, confirm := CancelAllPendingKey(cid, rid), CancelAllConfirmKey(cid, rid);
      var pending := StatusUpdate(None, cid, CancelRequested, current, CancelPending, None);
      var confirmed := StatusUpdate(None, cid, CancelConfirmed, CancelPending, Cancelled, order.exchangeId);
      PersistAlike(w, v, pend, pending);
      var w1 := if current == CancelPending then w else Persist(w, pend, pending);
      var v1 := if current == CancelPending then v else Persist(v, pend, pending);
      PersistAlike(w1, v1, confirm, confirmed);
    }
  }

  lemma {:induction false} CancelEachAlike(w: World, v: World, rid: string, orders: seq<VenueOrder>)
    requires Twins(w, v)
    ensures Twins(CancelEach(w, rid, orders).0, CancelEach(v, rid, orders).0)
    ensures CancelEach(w, rid, orders).1 == CancelEach(v, rid, orders).1
  {
    if orders != [] {
      var front := orders[..|orders| - 1];
      CancelEachAlike(w, v, rid, front);
      CancelListedAlike(CancelEach(w, rid, front).0, CancelEach(v, rid, front).0, rid, orders[|orders| - 1]);
    }
  }

  lemma CancelAllAlike(w: World, v: World, rid: string, reply: Reply<seq<VenueOrder>>)
    requires Twins(w, v)
    ensures Alike(CancelAllAs(w, rid, reply), CancelAllAs(v, rid, reply))
  {
    var key, r := CancelAllKey(rid), CancelAllRequested(w.mem.nextSeq);
    ClaimAlike(w, v, key, r);
    if reply.Answer? {
      CancelEachAlike(Transmit(Claim(w, key, r), rid), Transmit(Claim(v, key, r), rid), rid, reply.value);
    }
  }

  lemma FillAlike(w: World, v: World, cid: string, fill: Fill)
    requires Twins(w, v)
    ensures Alike(ReportFill(w, cid, fill), ReportFill(v, cid, fill))
  {
    if cid in w.mem.snapshots && !Terminal(w.mem.snapshots[cid].state) {
      var s := w.mem.snapshots[cid];
      var t := if s.filled + fill.quantity >= s.terms.quantity then FullFill else PartialFill;
      if Next(s.state, t).Some? {
        PersistAlike(w, v, FillKey(cid, fill.id),
                     OrderFilled(cid, t, s.state, Next(s.state, t).value, fill.id, fill.quantity));
      }
    }
  }

  lemma PlaceOrderAlike(w: World, v: World, terms: Terms, reply: Reply<VenueOrder>)
    requires Twins(w, v) && IdsInOrder(w)
    ensures Alike(PlaceOrder(w, terms, reply), PlaceOrder(v, terms, reply))
  {
    PlaceAlike(w, v, MakeId(w.om, w.mem.nextSeq, "place"), terms, reply);
  }

  lemma AmendOrderAlike(w: World, v: World, cid: string, quantity: Option<real>, limit: Option<real>, reply: Reply<VenueOrder>)
    requires Twins(w, v)
    ensures Alike(AmendOrder(w, cid, quantity, limit, reply), AmendOrder(v, cid, quantity, limit, reply))
  {
    AmendAlike(w, v, MakeId(w.om, w.mem.nextSeq, "amend"), cid, reply);
  }

  lemma CancelOrderAlike(w: World, v: World, cid: string, reply: Reply<VenueOrder>)
    requires Twins(w, v)
    ensures Alike(CancelOrder(w, cid, reply), CancelOrder(v, cid, reply))
  {
    if cid in w.mem.snapshots && Next(w.mem.snapshots[cid].state, CancelRequested).Some? {
      CancelAlike(w, v, MakeId(w.om, w.mem.nextSeq, "cancel"), cid, w.mem.snapshots[cid].state, reply);
    }
  }

  lemma ResyncAlike(w: World, v: World, cid: string, found: Reply<Option<VenueOrder>>)
    requires Twins(w, v)
    ensures Alike(ResyncOrder(w, cid, found), ResyncOrder(v, cid, found))
  {
    if found.Answer? && found.value.Some? {
      IngestAlike(w, v, cid, found.value.value.status, found.value.value.exchangeId);
    }
  }

  /** One call: the same answer, the same log, the same transmissions. */
  lemma DoAlike(w: World, v: World, c: Call)
    requires Twins(w, v) && IdsInOrder(w)
    ensures Alike(Do(w, c), Do(v, c))
  {
    match c
    case Place(terms, reply) => PlaceOrderAlike(w, v, terms, reply);
    case Amend(cid, quantity, limit, reply) => AmendOrderAlike(w, v, cid, quantity, limit, reply);
    case Cancel(cid, reply) => CancelOrderAlike(w, v, cid, reply);
    case CancelEverything(reply) => CancelAllAlike(w, v, MakeId(w.om, w.mem.nextSeq, "cancel_all"), reply);
    case Fill(cid, fill) => FillAlike(w, v, cid, fill);
    case Update(cid, order) => IngestAlike(w, v, cid, order.status, order.exchangeId);
    case Resync(cid, found) => ResyncAlike(w, v, cid, found);
  }

  /** What the completed calls of a run were answered. */
  function Answers(w: World, actions: seq<Action>): seq<Outcome> {
    if actions == [] then []
    else
      var front, a := actions[..|actions| - 1], actions[|actions| - 1];
      Answers(w, front) + (if a.Complete? then [Do(Run(w, front), a.call).1] else [])
  }

  lemma ActAlike(w: World, v: World, a: Action)
    requires Twins(w, v) && Good(w)
    ensures Twins(Act(w, a), Act(v, a))
    ensures a.Complete? ==> Do(w, a.call).1 == Do(v, a.call).1
  {
    GoodIdsInOrder(w);
    if !a.OtherWriter? {
      DoAlike(w, v, a.call);
    }
  }

  /** Twins stay twins and answer alike, whatever is called, written or lost. */
  lemma {:induction false} TwinsAnswerAlike(w: World, v: World, actions: seq<Action>)
    requires Twins(w, v) && Good(w) && forall i :: 0 <= i < |actions| ==> Allowed(actions[i])
    ensures Twins(Run(w, actions), Run(v, actions)) && Answers(w, actions) == Answers(v, actions)
  {
    if actions != [] {
      var front := actions[..|actions| - 1];
      TwinsAnswerAlike(w, v, front);
      RunExtends(w, front);
      ActAlike(Run(w, front), Run(v, front), actions[|actions| - 1]);
    }
  }

  /**
   After any run, throw the memory away and rebuild it from the log.  From there on, over
   any further calls, other writers and crashes, every call is answered, every event
   persisted and every request transmitted exactly as by the manager that lived on.
   */
  lemma RestartIsInvisible(om: string, actions: seq<Action>, later: seq<Action>)
    requires forall i :: 0 <= i < |actions| ==> Allowed(actions[i])
    requires forall i :: 0 <= i < |later| ==> Allowed(later[i])
    ensures var w := Run(World(om, Initial, [], []), actions);
            var v := Restarted(w, |w.log|);
      && Answers(w, later) == Answers(v, later)
      && Run(w, later).log == Run(v, later).log && Run(w, later).sent == Run(v, later).sent
      && SameView(Run(w, later).mem, Run(v, later).mem)
  {
    var w := Run(World(om, Initial, [], []), actions);
    RunIsGood(om, actions);
    assert w.log[..|w.log|] == w.log;
    NothingLater(w.om, w.log, w.sent);
    TwinsAnswerAlike(w, Restarted(w, |w.log|), later);
  }

  lemma NothingLater(om: string, log: Log, sent: seq<Sent>)
    requires SentOk(om, log, sent)
    ensures SentUpTo(sent, |log|) == sent
  {
  }
}
