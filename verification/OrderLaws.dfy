/**
 What each call of the order manager comes to, for every answer of the venue: the state and
 the terms of the order, what was transmitted, and which records reach the log.
 */
module OrderLaws {
  import opened Wrappers
  import opened Text
  import opened EventLog
  import opened OrderStates
  import R = Records
  import opened Records
  import opened Orders
  import opened OrderHistory
  import opened OrderRuns

  /** The id minted for a call. */
  function Id(om: string, number: nat, what: string): string {
    "om:" + om + ":" + (Decimal(number) + ":" + what)
  }

  lemma IdIsMinted(om: string, number: nat, what: string)
    ensures Id(om, number, what) == MakeId(om, number, what) && MintedFrom(om, number, Id(om, number, what))
  {
    assert MakeId(om, number, what) == Id(om, number, what);
  }

  // ---- what the venue says ----

  /** Where a reported status takes an order: somewhere, nowhere, or into a contradiction. */
  function After(current: State, status: Status): Option<State> {
    match status
    case AcknowledgedStatus =>
      if current == Submitted then Some(Acknowledged) else if current == New then None else Some(current)
    case RejectedStatus =>
      if current == Submitted then Some(Rejected)
      else if current in {New, Acknowledged, PartiallyFilled, CancelPending} then None else Some(current)
    case CancelledStatus =>
      if current in {PartiallyFilled, CancelPending} then Some(Cancelled)
      else if current in {New, Submitted, Acknowledged} then None else Some(current)
    case _ => Some(current)
  }

  /** The venue's id once it has said one. */
  function Named(s: Snapshot, exchangeId: Option<string>): Option<string> {
    if exchangeId == None || exchangeId == Some("") then s.exchangeId else exchangeId
  }

  /** A status record on the log is one the order has been through. */
  lemma {:induction false} StatusIsBehind(om: string, log: Log, cid: string, t: Trigger, s: State)
    requires Proper(om, log) && HasKey(log, ForOrder(StatusKey(cid, t, s)))
    ensures Next(s, t).Some? && cid in Replay(log).value.snapshots
    ensures Rank(Next(s, t).value) <= Rank(Replay(log).value.snapshots[cid].state)
  {
    var front, e := log[..|log| - 1], log[|log| - 1];
    if e.key != Some(ForOrder(StatusKey(cid, t, s))) {
      StatusIsBehind(om, front, cid, t, s);
    }
    if e.payload.Order? {
      ApplyIsLater(om, Replay(front).value, e.payload.order);
    }
    hide Rank, Next, Issued, MakeId;
  }

  lemma StatusKeyIsFree(w: World, cid: string, t: Trigger)
    requires Good(w) && cid in w.mem.snapshots && FromVenue(t) && Next(w.mem.snapshots[cid].state, t).Some?
    ensures !HasKey(w.log, ForOrder(StatusKey(cid, t, w.mem.snapshots[cid].state)))
  {
    SameOrders(w);
    VenueStatusClimbs(w.mem.snapshots[cid].state, t);
    hide *;
    if HasKey(w.log, ForOrder(StatusKey(cid, t, w.mem.snapshots[cid].state))) {
      StatusIsBehind(w.om, w.log, cid, t, w.mem.snapshots[cid].state);
      assert false;
    }
  }

  lemma SameOrders(w: World)
    requires Good(w)
    ensures Proper(w.om, w.log) && Replay(w.log).value.snapshots == w.mem.snapshots
  {
  }

  lemma VenueStatusClimbs(s: State, t: Trigger)
    requires FromVenue(t) && Next(s, t).Some?
    ensures Rank(s) < Rank(Next(s, t).value)
  {
  }

  /** One more event, and this snapshot new. */
  ghost predicate Writes(w: World, w': World, key: OrderKey, r: OrderRecord, cid: string, s: Snapshot) {
    && w'.log == w.log + [Event(NextId(w.log), Some(ForOrder(key)), Order(r))]
    && w'.mem.snapshots == w.mem.snapshots[cid := s] && w'.om == w.om && w'.sent == w.sent
    && w'.mem.nextSeq == w.mem.nextSeq
  }

  /**
   A status from the venue moves a submitted order to acknowledged or rejected, and a
   partially filled or cancelling one to cancelled, by one record; a status that belongs to
   a state the order has passed changes nothing; one it cannot have is an error.
   */
  lemma StatusBooks(w: World, cid: string, status: Status, exchangeId: Option<string>)
    requires Good(w)
    ensures var (w', out) := IngestStatus(w, cid, status, exchangeId);
      if cid !in w.mem.snapshots then (w', out) == (w, Raised(NotFound))
      else
        var s := w.mem.snapshots[cid];
        if After(s.state, status).None? then (w', out) == (w, Raised(Inconsistent))
        else if After(s.state, status).value == s.state then (w', out) == (w, Snap(s))
        else
          var to := After(s.state, status).value;
          var t := if to == Acknowledged then Acknowledge else if to == Rejected then Reject else CancelConfirmed;
          var s' := s.(state := to, exchangeId := Named(s, exchangeId));
          out == Snap(s') && Writes(w, w', StatusKey(cid, t, s.state), StatusUpdate(None, cid, t, s.state, to, exchangeId), cid, s')
  {
    if cid in w.mem.snapshots {
      var s := w.mem.snapshots[cid];
      AfterIs(s.state, status);
      hide After, Next, Stale, TriggerFor, Writes, Good;
      if TriggerFor(status).Some? && Next(s.state, TriggerFor(status).value).Some? {
        StatusWrites(w, cid, TriggerFor(status).value, exchangeId);
      }
    }
  }

  lemma AfterIs(current: State, status: Status)
    ensures match TriggerFor(status)
      case None => After(current, status) == Some(current)
      case Some(t) =>
        && FromVenue(t)
        && match Next(current, t)
           case Some(to) =>
             After(current, status) == Some(to) && to != current
             && t == (if to == Acknowledged then Acknowledge else if to == Rejected then Reject else CancelConfirmed)
           case None => After(current, status) == if Stale(current, t) then Some(current) else None
  {
  }

  lemma StatusWrites(w: World, cid: string, t: Trigger, exchangeId: Option<string>)
    requires Good(w) && cid in w.mem.snapshots && FromVenue(t) && Next(w.mem.snapshots[cid].state, t).Some?
    ensures var s := w.mem.snapshots[cid];
            var to := Next(s.state, t).value;
            var s' := s.(state := to, exchangeId := Named(s, exchangeId));
            var w' := Persist(w, StatusKey(cid, t, s.state), StatusUpdate(None, cid, t, s.state, to, exchangeId));
      && Writes(w, w', StatusKey(cid, t, s.state), StatusUpdate(None, cid, t, s.state, to, exchangeId), cid, s')
      && Answered(w', cid) == Snap(s')
  {
    StatusKeyIsFree(w, cid, t);
    hide Good, Next, FromVenue;
  }

  // ---- placing ----

  lemma Claimed(w: World, key: OrderKey, r: OrderRecord)
    requires Good(w) && ClaimOk(w, key, r)
    ensures var w1 := Transmit(Claim(w, key, r), IdOf(key));
      && Good(Claim(w, key, r)) && Good(w1) && w1.om == w.om && w1.mem.nextSeq == w.mem.nextSeq + 1
      && w1.log == Claim(w, key, r).log == w.log + [Event(NextId(w.log), Some(ForOrder(key)), Order(r))]
      && w1.mem == Claim(w, key, r).mem && Some(w1.mem) == Apply(w.mem, r)
      && w1.sent == w.sent + [Sent(|w.log| + 1, IdOf(key))]
  {
    ClaimKeeps(w, key, r);
    TransmitKeeps(w, key, r);
    NumberTaken(w, r);
    GuardedRecordsApply(w.om, w.mem, r);
    hide Good, Guard, ClaimOk, SameView;
  }

  lemma HasKeyAfter(log: Log, e: Entry, key: Key)
    ensures HasKey(log + [e], key) <==> e.key == Some(key) || HasKey(log, key)
  {
    assert (log + [e])[..|log|] == log;
  }

  lemma PlaceClaims(w: World, terms: Terms)
    requires Good(w)
    ensures var cid := Id(w.om, w.mem.nextSeq, "place");
            var key, r := SubmitKey(cid), OrderSubmitted(w.mem.nextSeq, cid, terms);
      && cid == MakeId(w.om, w.mem.nextSeq, "place") && cid !in w.mem.snapshots && ClaimOk(w, key, r)
      && !HasKey(w.log, ForOrder(SubmitFailedKey(cid)))
  {
    GoodIdsInOrder(w);
    FreshId(w.om, w.log, SubmitFailedKey(Id(w.om, w.mem.nextSeq, "place")), "place");
    IdIsMinted(w.om, w.mem.nextSeq, "place");
  }

  /** The order as it stands once its submission is recorded. */
  function JustSubmitted(terms: Terms): Snapshot {
    Snapshot(Submitted, None, terms, 0.0)
  }

  /**
   Placing an order.  The submission is recorded under the next id, which no order has yet,
   before anything is transmitted; terms the venue's request refuses end there.  Otherwise
   the id is transmitted once, and the order is rejected exactly when the venue says so,
   acknowledged for any other answer, and failed when there is none.
   */
  lemma PlaceBooks(w: World, terms: Terms, reply: Reply<VenueOrder>)
    requires Good(w)
    ensures var (w', out) := PlaceOrder(w, terms, reply);
            var cid := Id(w.om, w.mem.nextSeq, "place");
            var submitted := Event(NextId(w.log), Some(ForOrder(SubmitKey(cid))), Order(OrderSubmitted(w.mem.nextSeq, cid, terms)));
      && cid !in w.mem.snapshots && w'.mem.nextSeq == w.mem.nextSeq + 1
      && w.log + [submitted] <= w'.log
      && (if terms.quantity <= 0.0 || (terms.limitPrice.Some? && terms.limitPrice.value <= 0.0) then
            && out == Raised(BadRequest) && w'.sent == w.sent && w'.log == w.log + [submitted]
            && w'.mem.snapshots == w.mem.snapshots[cid := JustSubmitted(terms)]
          else
            && w'.sent == w.sent + [Sent(|w.log| + 1, cid)] && |w'.log| == |w.log| + 2
            && match reply
               case VenueDown =>
                 out == Raised(VenueError) && w'.mem.snapshots == w.mem.snapshots[cid := JustSubmitted(terms).(state := Failed)]
               case Answer(order) =>
                 var s := Snapshot(if order.status == RejectedStatus then Rejected else Acknowledged,
                                   Named(JustSubmitted(terms), order.exchangeId), terms, 0.0);
                 out == Snap(s) && w'.mem.snapshots == w.mem.snapshots[cid := s])
  {
    var w1, w2 := PlaceStarts(w, terms, reply);
    var cid := MakeId(w.om, w.mem.nextSeq, "place");
    hide Good, MakeId, Id, IngestStatus, RecordFailure, HasKey, PlaceOrder;
    if terms.quantity > 0.0 && (terms.limitPrice.Some? ==> terms.limitPrice.value > 0.0) {
      if reply.VenueDown? {
        FailureWrites(w2, cid, SubmitFailed, SubmitFailedKey(cid));
        UpdatedTwice(w.mem.snapshots, cid, JustSubmitted(terms), JustSubmitted(terms).(state := Failed));
      } else {
        PlacedStatus(w2, cid, terms, reply.value);
      }
    }
  }

  /** The submission claims its number and is recorded; then, if the request can be made, it goes out. */
  lemma PlaceStarts(w: World, terms: Terms, reply: Reply<VenueOrder>) returns (w1: World, w2: World)
    requires Good(w)
    ensures var cid := Id(w.om, w.mem.nextSeq, "place");
      && cid == MakeId(w.om, w.mem.nextSeq, "place") && cid !in w.mem.snapshots && Good(w2) && w2 == Transmit(w1, cid)
      && w1.sent == w.sent && w2.sent == w.sent + [Sent(|w.log| + 1, cid)] && w1.mem.nextSeq == w.mem.nextSeq + 1
      && w1.mem.snapshots == w.mem.snapshots[cid := JustSubmitted(terms)]
      && w1.log == w.log + [Event(NextId(w.log), Some(ForOrder(SubmitKey(cid))), Order(OrderSubmitted(w.mem.nextSeq, cid, terms)))]
      && !HasKey(w1.log, ForOrder(SubmitFailedKey(cid)))
      && PlaceOrder(w, terms, reply)
         == if terms.quantity <= 0.0 || (terms.limitPrice.Some? && terms.limitPrice.value <= 0.0) then (w1, Raised(BadRequest))
            else match reply
              case VenueDown => RecordFailure(w2, cid, SubmitFailed, SubmitFailedKey(cid))
              case Answer(order) =>
                IngestStatus(w2, cid, if order.status.RejectedStatus? then RejectedStatus else AcknowledgedStatus, order.exchangeId)
  {
    var cid := Id(w.om, w.mem.nextSeq, "place");
    var key, r := SubmitKey(cid), OrderSubmitted(w.mem.nextSeq, cid, terms);
    PlaceClaims(w, terms);
    Claimed(w, key, r);
    w1 := Claim(w, key, r);
    w2 := Transmit(w1, cid);
    HasKeyAfter(w.log, w1.log[|w.log|], ForOrder(SubmitFailedKey(cid)));
    hide Good, MakeId, Id, ClaimOk, IngestStatus, RecordFailure, HasKey, Persist;
  }

  lemma PlacedStatus(w: World, cid: string, terms: Terms, order: VenueOrder)
    requires Good(w) && cid in w.mem.snapshots && w.mem.snapshots[cid] == JustSubmitted(terms)
    ensures var status := if order.status.RejectedStatus? then RejectedStatus else AcknowledgedStatus;
            var (w', out) := IngestStatus(w, cid, status, order.exchangeId);
            var s := Snapshot(if order.status == RejectedStatus then Rejected else Acknowledged,
                              Named(JustSubmitted(terms), order.exchangeId), terms, 0.0);
      && out == Snap(s) && w'.mem.snapshots == w.mem.snapshots[cid := s] && w'.mem.nextSeq == w.mem.nextSeq
      && w'.sent == w.sent && w.log <= w'.log && |w'.log| == |w.log| + 1
  {
    StatusBooks(w, cid, if order.status.RejectedStatus? then RejectedStatus else AcknowledgedStatus, order.exchangeId);
    hide IngestStatus, Good;
  }

  lemma FailureWrites(w: World, cid: string, t: Trigger, key: OrderKey)
    requires cid in w.mem.snapshots && !HasKey(w.log, ForOrder(key))
    requires (w.mem.snapshots[cid].state == Submitted && t == SubmitFailed) || (w.mem.snapshots[cid].state == CancelPending && t == CancelFailed)
    ensures var (w', out) := RecordFailure(w, cid, t, key);
            var s := w.mem.snapshots[cid];
      out == Raised(VenueError)
      && Writes(w, w', key, StatusUpdate(None, cid, t, s.state, Failed, None), cid, s.(state := Failed))
  {
  }

  lemma UpdatedTwice(m: map<string, Snapshot>, cid: string, first: Snapshot, second: Snapshot)
    ensures m[cid := first][cid := second] == m[cid := second]
  {
  }

  // ---- amending ----

  /** The order with what the venue says it is now: a quantity of zero leaves the old one, the limit is as told. */
  function AmendedBy(s: Snapshot, order: VenueOrder): Snapshot {
    s.(terms := s.terms.(quantity := if order.quantity == 0.0 then s.terms.quantity else order.quantity, limitPrice := order.limit))
  }

  lemma AmendClaims(w: World, cid: string)
    requires Good(w)
    ensures var rid := Id(w.om, w.mem.nextSeq, "amend");
      && rid == MakeId(w.om, w.mem.nextSeq, "amend")
      && ClaimOk(w, AmendRequestKey(cid, rid), AmendRequested(w.mem.nextSeq, cid))
      && !HasKey(w.log, ForOrder(AmendKey(cid, rid)))
  {
    FreshId(w.om, w.log, AmendKey(cid, Id(w.om, w.mem.nextSeq, "amend")), "amend");
    IdIsMinted(w.om, w.mem.nextSeq, "amend");
  }

  /**
   Amending an order.  It must ask for something, of an order that is acknowledged or partly
   filled and has its venue id.  The intent is recorded before it is transmitted; without
   an answer the order stays as it is, with one it takes the quantity and the limit the
   venue names and keeps everything else.
   */
  lemma AmendBooks(w: World, cid: string, quantity: Option<real>, limit: Option<real>, reply: Reply<VenueOrder>)
    requires Good(w)
    ensures var (w', out) := AmendOrder(w, cid, quantity, limit, reply);
      if quantity == None && limit == None then (w', out) == (w, Raised(BadRequest))
      else if cid !in w.mem.snapshots then (w', out) == (w, Raised(NotFound))
      else if w.mem.snapshots[cid].state !in {Acknowledged, PartiallyFilled} then (w', out) == (w, Raised(Illegal))
      else if w.mem.snapshots[cid].exchangeId == None then (w', out) == (w, Raised(Inconsistent))
      else
        var rid := Id(w.om, w.mem.nextSeq, "amend");
        var intent := Event(NextId(w.log), Some(ForOrder(AmendRequestKey(cid, rid))), Order(AmendRequested(w.mem.nextSeq, cid)));
        && w'.sent == w.sent + [Sent(|w.log| + 1, rid)] && w'.mem.nextSeq == w.mem.nextSeq + 1
        && match reply
           case VenueDown => out == Raised(VenueError) && w'.log == w.log + [intent] && w'.mem.snapshots == w.mem.snapshots
           case Answer(order) =>
             var s' := AmendedBy(w.mem.snapshots[cid], order);
             && out == Snap(s') && w'.mem.snapshots == w.mem.snapshots[cid := s']
             && |w'.log| == |w.log| + 2 && w.log + [intent] <= w'.log
             && w'.log[|w.log| + 1].payload == Order(Amended(cid, order.quantity, order.limit))
  {
    var rid := Id(w.om, w.mem.nextSeq, "amend");
    AmendClaims(w, cid);
    Claimed(w, AmendRequestKey(cid, rid), AmendRequested(w.mem.nextSeq, cid));
    var w1 := Transmit(Claim(w, AmendRequestKey(cid, rid), AmendRequested(w.mem.nextSeq, cid)), rid);
    HasKeyAfter(w.log, w1.log[|w.log|], ForOrder(AmendKey(cid, rid)));
    hide Good, MakeId, Id, ClaimOk, HasKey;
  }

  // ---- cancelling ----

  lemma CancelClaims(w: World, cid: string)
    requires Good(w) && cid in w.mem.snapshots && w.mem.snapshots[cid].state in {Acknowledged, PartiallyFilled}
    ensures var rid := Id(w.om, w.mem.nextSeq, "cancel");
            var r := StatusUpdate(Some(w.mem.nextSeq), cid, CancelRequested, w.mem.snapshots[cid].state, CancelPending, None);
      && rid == MakeId(w.om, w.mem.nextSeq, "cancel") && ClaimOk(w, CancelKey(cid, rid), r)
      && !HasKey(w.log, ForOrder(CancelFailedKey(cid, rid)))
  {
    FreshId(w.om, w.log, CancelFailedKey(cid, Id(w.om, w.mem.nextSeq, "cancel")), "cancel");
    IdIsMinted(w.om, w.mem.nextSeq, "cancel");
  }

  /** The order once a cancel is under way. */
  function Pending(s: Snapshot): Snapshot {
    s.(state := CancelPending)
  }

  /**
   Cancelling an order.  One whose cancel is under way is answered as it is; any other must
   be acknowledged or partly filled and have its venue id.  The order is pending before the
   request is transmitted, once.  Then it is cancelled exactly when the venue says so,
   failed when there is no answer, and pending for any other; a rejection is an error.
   */
  lemma CancelBooks(w: World, cid: string, reply: Reply<VenueOrder>)
    requires Good(w)
    ensures var (w', out) := CancelOrder(w, cid, reply);
      if cid !in w.mem.snapshots then (w', out) == (w, Raised(NotFound))
      else
        var s := w.mem.snapshots[cid];
        if s.state == CancelPending then (w', out) == (w, Snap(s))
        else if s.state !in {Acknowledged, PartiallyFilled} then (w', out) == (w, Raised(Illegal))
        else if s.exchangeId == None then (w', out) == (w, Raised(Inconsistent))
        else
          var rid := Id(w.om, w.mem.nextSeq, "cancel");
          && w'.sent == w.sent + [Sent(|w.log| + 1, rid)] && w'.mem.nextSeq == w.mem.nextSeq + 1
          && w.log + [Event(NextId(w.log), Some(ForOrder(CancelKey(cid, rid))),
               Order(StatusUpdate(Some(w.mem.nextSeq), cid, CancelRequested, s.state, CancelPending, None)))] <= w'.log
          && match reply
             case VenueDown =>
               out == Raised(VenueError) && |w'.log| == |w.log| + 2 && w'.mem.snapshots == w.mem.snapshots[cid := s.(state := Failed)]
             case Answer(order) =>
               if order.status == CancelledStatus then
                 var s' := s.(state := Cancelled, exchangeId := Named(s, order.exchangeId));
                 out == Snap(s') && |w'.log| == |w.log| + 2 && w'.mem.snapshots == w.mem.snapshots[cid := s']
               else
                 && |w'.log| == |w.log| + 1 && w'.mem.snapshots == w.mem.snapshots[cid := Pending(s)]
                 && out == if order.status == RejectedStatus then Raised(Inconsistent) else Snap(Pending(s))
  {
    if cid in w.mem.snapshots {
      CancelGuards(w, cid, reply);
      var s := w.mem.snapshots[cid];
      hide Good, CancelOrder, CancelAs;
      if s.state in {Acknowledged, PartiallyFilled} && s.exchangeId.Some? {
        CancelGoesOn(w, cid, reply);
      }
    }
  }

  lemma CancelGoesOn(w: World, cid: string, reply: Reply<VenueOrder>)
    requires Good(w) && cid in w.mem.snapshots && w.mem.snapshots[cid].state in {Acknowledged, PartiallyFilled}
    requires Next(w.mem.snapshots[cid].state, CancelRequested) == Some(CancelPending)
    ensures var s := w.mem.snapshots[cid];
            var rid := Id(w.om, w.mem.nextSeq, "cancel");
            var (w', out) := CancelAs(w, MakeId(w.om, w.mem.nextSeq, "cancel"), cid, s.state, reply);
      && w'.sent == w.sent + [Sent(|w.log| + 1, rid)] && w'.mem.nextSeq == w.mem.nextSeq + 1
      && w'.mem.snapshots == w.mem.snapshots[cid := CancelledBy(s, reply)]
      && w.log + [Event(NextId(w.log), Some(ForOrder(CancelKey(cid, rid))),
           Order(StatusUpdate(Some(w.mem.nextSeq), cid, CancelRequested, s.state, CancelPending, None)))] <= w'.log
      && out == CancelAnswer(s, reply)
      && |w'.log| == |w.log| + (if reply.VenueDown? || reply.value.status == CancelledStatus then 2 else 1)
  {
    var s := w.mem.snapshots[cid];
    var w1 := CancelStarts(w, cid, reply);
    hide *;
    if reply.VenueDown? {
      var rid := MakeId(w.om, w.mem.nextSeq, "cancel");
      FailureIs(w1, cid, CancelFailed, CancelFailedKey(cid, rid));
    } else {
      CancelAnswered(w1, cid, s, reply.value);
    }
    AnswerOf(s, reply);
    UpdatedTwice(w.mem.snapshots, cid, Pending(s), CancelledBy(s, reply));
  }

  /** The cancel claims its number, the order is pending, and then the request goes out. */
  lemma CancelStarts(w: World, cid: string, reply: Reply<VenueOrder>) returns (w1: World)
    requires Good(w) && cid in w.mem.snapshots && w.mem.snapshots[cid].state in {Acknowledged, PartiallyFilled}
    requires Next(w.mem.snapshots[cid].state, CancelRequested) == Some(CancelPending)
    ensures var s, rid := w.mem.snapshots[cid], Id(w.om, w.mem.nextSeq, "cancel");
      && Good(w1) && rid == MakeId(w.om, w.mem.nextSeq, "cancel")
      && w1.sent == w.sent + [Sent(|w.log| + 1, rid)] && w1.mem.nextSeq == w.mem.nextSeq + 1
      && w1.mem.snapshots == w.mem.snapshots[cid := Pending(s)] && w1.mem.snapshots[cid].state == CancelPending
      && w1.mem.snapshots[cid].(state := Failed) == s.(state := Failed)
      && w1.log == w.log + [Event(NextId(w.log), Some(ForOrder(CancelKey(cid, rid))),
           Order(StatusUpdate(Some(w.mem.nextSeq), cid, CancelRequested, s.state, CancelPending, None)))]
      && !HasKey(w1.log, ForOrder(CancelFailedKey(cid, rid)))
      && CancelAs(w, rid, cid, s.state, reply)
         == match reply
            case VenueDown => RecordFailure(w1, cid, CancelFailed, CancelFailedKey(cid, rid))
            case Answer(order) => IngestStatus(w1, cid, order.status, order.exchangeId)
  {
    var s, rid := w.mem.snapshots[cid], Id(w.om, w.mem.nextSeq, "cancel");
    var r := StatusUpdate(Some(w.mem.nextSeq), cid, CancelRequested, s.state, CancelPending, None);
    CancelClaims(w, cid);
    Claimed(w, CancelKey(cid, rid), r);
    w1 := Transmit(Claim(w, CancelKey(cid, rid), r), rid);
    PendingNow(w, w1, cid, r);
    HasKeyAfter(w.log, w1.log[|w.log|], ForOrder(CancelFailedKey(cid, rid)));
    hide Good, MakeId, Id, ClaimOk, IngestStatus, RecordFailure, HasKey, Persist, Apply;
  }

  lemma FailureIs(w: World, cid: string, t: Trigger, key: OrderKey)
    requires cid in w.mem.snapshots && !HasKey(w.log, ForOrder(key))
    requires w.mem.snapshots[cid].state == CancelPending && t == CancelFailed
    ensures var (w', out) := RecordFailure(w, cid, t, key);
      && out == Raised(VenueError) && w'.mem.snapshots == w.mem.snapshots[cid := w.mem.snapshots[cid].(state := Failed)]
      && w'.sent == w.sent && w'.mem.nextSeq == w.mem.nextSeq && w.log <= w'.log && |w'.log| == |w.log| + 1
  {
    FailureWrites(w, cid, t, key);
  }

  lemma PendingNow(w: World, w1: World, cid: string, r: OrderRecord)
    requires cid in w.mem.snapshots && Some(w1.mem) == Apply(w.mem, r)
    requires r == StatusUpdate(Some(w.mem.nextSeq), cid, CancelRequested, w.mem.snapshots[cid].state, CancelPending, None)
    ensures w1.mem.snapshots == w.mem.snapshots[cid := Pending(w.mem.snapshots[cid])]
  {
  }

  function CancelledBy(s: Snapshot, reply: Reply<VenueOrder>): Snapshot {
    match reply
    case VenueDown => s.(state := Failed)
    case Answer(order) =>
      if order.status == CancelledStatus then s.(state := Cancelled, exchangeId := Named(s, order.exchangeId)) else Pending(s)
  }

  function CancelAnswer(s: Snapshot, reply: Reply<VenueOrder>): Outcome {
    match reply
    case VenueDown => Raised(VenueError)
    case Answer(order) => if order.status == RejectedStatus then Raised(Inconsistent) else Snap(CancelledBy(s, reply))
  }

  lemma AnswerOf(s: Snapshot, reply: Reply<VenueOrder>)
    ensures reply.VenueDown? ==> CancelledBy(s, reply) == Pending(s).(state := Failed) && CancelAnswer(s, reply) == Raised(VenueError)
  {
  }

  lemma CancelAnswered(w: World, cid: string, s: Snapshot, order: VenueOrder)
    requires Good(w) && cid in w.mem.snapshots && w.mem.snapshots[cid] == Pending(s)
    ensures var (w', out) := IngestStatus(w, cid, order.status, order.exchangeId);
      && out == CancelAnswer(s, Answer(order)) && w'.sent == w.sent && w'.mem.nextSeq == w.mem.nextSeq
      && w'.mem.snapshots == w.mem.snapshots[cid := CancelledBy(s, Answer(order))]
      && w.log <= w'.log && |w'.log| == |w.log| + (if order.status == CancelledStatus then 1 else 0)
  {
    StatusBooks(w, cid, order.status, order.exchangeId);
    hide Good, IngestStatus;
  }

  lemma CancelGuards(w: World, cid: string, reply: Reply<VenueOrder>)
    requires cid in w.mem.snapshots
    ensures var s := w.mem.snapshots[cid];
      if s.state == CancelPending then CancelOrder(w, cid, reply) == (w, Snap(s))
      else if s.state !in {Acknowledged, PartiallyFilled} then CancelOrder(w, cid, reply) == (w, Raised(Illegal))
      else if s.exchangeId == None then CancelOrder(w, cid, reply) == (w, Raised(Inconsistent))
      else
        && Next(s.state, CancelRequested) == Some(CancelPending)
        && CancelOrder(w, cid, reply) == CancelAs(w, MakeId(w.om, w.mem.nextSeq, "cancel"), cid, s.state, reply)
  {
  }

  // ---- fills and resynchronising ----

  /**
   A reported fill.  New to an order the venue has acknowledged, it is recorded once and
   added, and the order is filled exactly when its quantity is reached; a known one changes
   nothing, one that comes after the end is remembered, one for an order that was never
   acknowledged is an error.
   */
  lemma FillBooks(w: World, cid: string, fill: R.Fill)
    requires Good(w)
    ensures var (w', out) := ReportFill(w, cid, fill);
      if cid !in w.mem.snapshots then (w', out) == (w, Raised(NotFound))
      else
        var s := w.mem.snapshots[cid];
        if fill.id in ProcessedOf(w.mem, cid) then (w', out) == (w, Snap(s))
        else if s.state in {Filled, Cancelled, Rejected, Expired, Failed} then
          && out == Snap(s) && w'.log == w.log && w'.mem.snapshots == w.mem.snapshots
          && ProcessedOf(w'.mem, cid) == ProcessedOf(w.mem, cid) + {fill.id}
        else if s.state in {New, Submitted} then (w', out) == (w, Raised(Inconsistent))
        else
          var full := s.filled + fill.quantity >= s.terms.quantity;
          var s' := s.(filled := s.filled + fill.quantity, state := if full then Filled else PartiallyFilled);
          && out == Snap(s')
          && Writes(w, w', FillKey(cid, fill.id),
                    OrderFilled(cid, if full then FullFill else PartialFill, s.state, s'.state, fill.id, fill.quantity), cid, s')
          && ProcessedOf(w'.mem, cid) == ProcessedOf(w.mem, cid) + {fill.id}
  {
    if cid in w.mem.snapshots && fill.id !in ProcessedOf(w.mem, cid) {
      if HasKey(w.log, ForOrder(FillKey(cid, fill.id))) {
        FilledIsProcessed(w.om, w.log, cid, fill.id);
        assert Terminal(w.mem.snapshots[cid].state);
      }
    }
    hide Good;
  }

  /**
   Resynchronising takes over what the venue finds, by the same rule as any status; nothing
   found changes nothing, and a search that cannot be asked or is not answered is an error.
   */
  lemma ResyncBooks(w: World, cid: string, found: Reply<Option<VenueOrder>>)
    requires Good(w)
    ensures var (w', out) := ResyncOrder(w, cid, found);
      if cid !in w.mem.snapshots then (w', out) == (w, Raised(NotFound))
      else
        var s := w.mem.snapshots[cid];
        if s.exchangeId == None && (s.terms.quantity <= 0.0 || (s.terms.limitPrice.Some? && s.terms.limitPrice.value <= 0.0))
        then (w', out) == (w, Raised(BadRequest))
        else match found
          case VenueDown => (w', out) == (w, Raised(VenueError))
          case Answer(None) => (w', out) == (w, Snap(s))
          case Answer(Some(order)) =>
            if After(s.state, order.status).None? then (w', out) == (w, Raised(Inconsistent))
            else
              var to := After(s.state, order.status).value;
              var s' := if to == s.state then s else s.(state := to, exchangeId := Named(s, order.exchangeId));
              && out == Snap(s') && w'.mem.snapshots == w.mem.snapshots[cid := s'] && w'.sent == w.sent
              && |w'.log| == |w.log| + (if to == s.state then 0 else 1) && w.log <= w'.log
  {
    if found.Answer? && found.value.Some? {
      StatusBooks(w, cid, found.value.value.status, found.value.value.exchangeId);
    }
    hide Good, IngestStatus, After;
  }

  // ---- cancelling everything ----

  predicate Live(s: State) {
    s in {Acknowledged, PartiallyFilled, CancelPending}
  }

  function Gone(s: Snapshot, order: VenueOrder): Snapshot {
    s.(state := Cancelled, exchangeId := Named(s, order.exchangeId))
  }

  /** Where the venue's list names an order first. */
  function First(orders: seq<VenueOrder>, cid: string): Option<VenueOrder> {
    if orders == [] then None
    else if First(orders[..|orders| - 1], cid).Some? then First(orders[..|orders| - 1], cid)
    else if orders[|orders| - 1].cid == cid then Some(orders[|orders| - 1]) else None
  }

  /** An order the list cancels: known, live and named. */
  predicate Hit(m: Memory, orders: seq<VenueOrder>, cid: string) {
    cid in m.snapshots && Live(m.snapshots[cid].state) && First(orders, cid).Some?
  }

  /** The cancelled orders, in the order the list first names them. */
  function Hits(m: Memory, orders: seq<VenueOrder>): seq<Snapshot> {
    if orders == [] then []
    else
      var front, o := orders[..|orders| - 1], orders[|orders| - 1];
      Hits(m, front) + (if Hit(m, orders, o.cid) && !Hit(m, front, o.cid) then [Gone(m.snapshots[o.cid], o)] else [])
  }

  predicate Untouched(log: Log, rid: string, cid: string) {
    !HasKey(log, ForOrder(CancelAllPendingKey(cid, rid))) && !HasKey(log, ForOrder(CancelAllConfirmKey(cid, rid)))
  }

  lemma ListedStep(w: World, rid: string, o: VenueOrder)
    requires Untouched(w.log, rid, o.cid)
    ensures var (w', more) := CancelListed(w, rid, o);
      && (forall cid :: cid != o.cid && Untouched(w.log, rid, cid) ==> Untouched(w'.log, rid, cid))
      && w.log <= w'.log && w'.sent == w.sent && w'.mem.nextSeq == w.mem.nextSeq
      && if o.cid in w.mem.snapshots && Live(w.mem.snapshots[o.cid].state) then
           var s' := Gone(w.mem.snapshots[o.cid], o);
           more == [s'] && w'.mem.snapshots == w.mem.snapshots[o.cid := s']
           && |w'.log| == |w.log| + (if w.mem.snapshots[o.cid].state == CancelPending then 1 else 2)
         else (w', more) == (w, [])
  {
    if o.cid in w.mem.snapshots && w.mem.snapshots[o.cid].state in {Acknowledged, PartiallyFilled} {
      ListedLive(w, rid, o);
    } else if o.cid in w.mem.snapshots && w.mem.snapshots[o.cid].state == CancelPending {
      PersistStep(w, CancelAllConfirmKey(o.cid, rid), StatusUpdate(None, o.cid, CancelConfirmed, CancelPending, Cancelled, o.exchangeId), o.cid, rid);
    }
    hide HasKey, Persist, Untouched;
  }

  /** Through pending to cancelled. */
  lemma ListedLive(w: World, rid: string, o: VenueOrder)
    requires Untouched(w.log, rid, o.cid) && o.cid in w.mem.snapshots && w.mem.snapshots[o.cid].state in {Acknowledged, PartiallyFilled}
    ensures var (w', more) := CancelListed(w, rid, o);
            var s' := Gone(w.mem.snapshots[o.cid], o);
      && (forall cid :: cid != o.cid && Untouched(w.log, rid, cid) ==> Untouched(w'.log, rid, cid))
      && w.log <= w'.log && w'.sent == w.sent && w'.mem.nextSeq == w.mem.nextSeq && |w'.log| == |w.log| + 2
      && more == [s'] && w'.mem.snapshots == w.mem.snapshots[o.cid := s']
  {
    var current := w.mem.snapshots[o.cid].state;
    var pend := StatusUpdate(None, o.cid, CancelRequested, current, CancelPending, None);
    var confirm := StatusUpdate(None, o.cid, CancelConfirmed, CancelPending, Cancelled, o.exchangeId);
    var w1 := Persist(w, CancelAllPendingKey(o.cid, rid), pend);
    PersistStep(w, CancelAllPendingKey(o.cid, rid), pend, o.cid, rid);
    PersistStep(w1, CancelAllConfirmKey(o.cid, rid), confirm, o.cid, rid);
    UpdatedTwice(w.mem.snapshots, o.cid, Pending(w.mem.snapshots[o.cid]), Gone(w.mem.snapshots[o.cid], o));
    hide HasKey, Persist, Untouched, Next;
  }

  lemma PersistStep(w: World, key: OrderKey, r: OrderRecord, own: string, rid: string)
    requires !HasKey(w.log, ForOrder(key)) && key in {CancelAllPendingKey(own, rid), CancelAllConfirmKey(own, rid)}
    requires r.StatusUpdate? && r.claimed.None? && r.cid == own && own in w.mem.snapshots
    requires w.mem.snapshots[own].state == r.source && Next(r.source, r.trigger) == Some(r.target)
    ensures Writes(w, Persist(w, key, r), key, r, own,
      w.mem.snapshots[own].(state := r.target, exchangeId := Named(w.mem.snapshots[own], r.exchangeId)))
    ensures forall cid :: cid != own && Untouched(w.log, rid, cid) ==> Untouched(Persist(w, key, r).log, rid, cid)
    ensures forall other :: other != key && !HasKey(w.log, ForOrder(other)) ==> !HasKey(Persist(w, key, r).log, ForOrder(other))
  {
    var e := Event(NextId(w.log), Some(ForOrder(key)), Order(r));
    forall other | other != key && !HasKey(w.log, ForOrder(other))
      ensures !HasKey(Persist(w, key, r).log, ForOrder(other))
    {
      HasKeyAfter(w.log, e, ForOrder(other));
    }
  }

  /** What the sweep has done by the end of this list. */
  ghost predicate Swept(w: World, rid: string, orders: seq<VenueOrder>, w': World, done: seq<Snapshot>) {
    && done == Hits(w.mem, orders)
    && w'.mem.snapshots.Keys == w.mem.snapshots.Keys
    && (forall cid :: cid in w.mem.snapshots ==>
         w'.mem.snapshots[cid] == if Hit(w.mem, orders, cid) then Gone(w.mem.snapshots[cid], First(orders, cid).value) else w.mem.snapshots[cid])
    && (forall cid :: !Hit(w.mem, orders, cid) ==> Untouched(w'.log, rid, cid))
    && w.log <= w'.log && w'.sent == w.sent && w'.mem.nextSeq == w.mem.nextSeq
  }

  lemma HitsOfMore(m: Memory, front: seq<VenueOrder>, o: VenueOrder)
    ensures forall cid :: Hit(m, front + [o], cid) <==> Hit(m, front, cid) || (cid == o.cid && cid in m.snapshots && Live(m.snapshots[cid].state))
    ensures forall cid :: First(front, cid).Some? ==> First(front + [o], cid) == First(front, cid)
    ensures First(front, o.cid).None? ==> First(front + [o], o.cid) == Some(o)
    ensures Hits(m, front + [o])
         == Hits(m, front) + (if Hit(m, front + [o], o.cid) && !Hit(m, front, o.cid) then [Gone(m.snapshots[o.cid], o)] else [])
  {
    assert (front + [o])[..|front|] == front;
  }

  lemma SweptMore(w: World, rid: string, front: seq<VenueOrder>, o: VenueOrder, w1: World, done: seq<Snapshot>)
    requires Swept(w, rid, front, w1, done)
    ensures var (w2, more) := CancelListed(w1, rid, o); Swept(w, rid, front + [o], w2, done + more)
  {
    HitsOfMore(w.mem, front, o);
    hide Hits, First, CancelListed, Untouched;
    if Hit(w.mem, front, o.cid) {
      assert !Live(w1.mem.snapshots[o.cid].state);
      DoneIsLeft(w1, rid, o);
      assert done + [] == done;
    } else {
      ListedStep(w1, rid, o);
      assert done + [] == done;
    }
  }

  lemma DoneIsLeft(w: World, rid: string, o: VenueOrder)
    requires o.cid in w.mem.snapshots && !Live(w.mem.snapshots[o.cid].state)
    ensures CancelListed(w, rid, o) == (w, [])
  {
  }

  lemma {:induction false} SweepBooks(w: World, rid: string, orders: seq<VenueOrder>)
    requires forall cid :: Untouched(w.log, rid, cid)
    ensures var (w', done) := CancelEach(w, rid, orders); Swept(w, rid, orders, w', done)
  {
    if orders != [] {
      var front, o := orders[..|orders| - 1], orders[|orders| - 1];
      var (w1, done) := CancelEach(w, rid, front);
      SweepBooks(w, rid, front);
      SweptMore(w, rid, front, o, w1, done);
      assert front + [o] == orders;
      hide Swept, CancelListed, Untouched;
    }
  }

  lemma CancelAllClaims(w: World)
    requires Good(w)
    ensures var rid := Id(w.om, w.mem.nextSeq, "cancel_all");
      && rid == MakeId(w.om, w.mem.nextSeq, "cancel_all")
      && ClaimOk(w, CancelAllKey(rid), CancelAllRequested(w.mem.nextSeq))
      && forall cid :: Untouched(w.log, rid, cid)
  {
    var rid := Id(w.om, w.mem.nextSeq, "cancel_all");
    IdIsMinted(w.om, w.mem.nextSeq, "cancel_all");
    forall cid
      ensures Untouched(w.log, rid, cid)
    {
      FreshId(w.om, w.log, CancelAllPendingKey(cid, rid), "cancel_all");
      FreshId(w.om, w.log, CancelAllConfirmKey(cid, rid), "cancel_all");
    }
  }

  /**
   Cancelling everything.  The intent is recorded before it is transmitted.  Without an
   answer nothing else happens; otherwise exactly the live orders the venue names are
   cancelled, with the venue id of their first mention, and are what is returned, in that
   order; every other order stays as it is.
   */
  lemma CancelAllBooks(w: World, reply: Reply<seq<VenueOrder>>)
    requires Good(w)
    ensures var (w', out) := CancelAll(w, reply);
            var rid := Id(w.om, w.mem.nextSeq, "cancel_all");
      && w'.sent == w.sent + [Sent(|w.log| + 1, rid)] && w'.mem.nextSeq == w.mem.nextSeq + 1
      && w.log + [Event(NextId(w.log), Some(ForOrder(CancelAllKey(rid))), Order(CancelAllRequested(w.mem.nextSeq)))] <= w'.log
      && match reply
         case VenueDown => out == Raised(VenueError) && w'.mem.snapshots == w.mem.snapshots && |w'.log| == |w.log| + 1
         case Answer(orders) =>
           && out == Snaps(Hits(w.mem, orders)) && w'.mem.snapshots.Keys == w.mem.snapshots.Keys
           && forall cid :: cid in w.mem.snapshots ==>
                w'.mem.snapshots[cid] == if Hit(w.mem, orders, cid) then Gone(w.mem.snapshots[cid], First(orders, cid).value)
                                         else w.mem.snapshots[cid]
  {
    var rid := Id(w.om, w.mem.nextSeq, "cancel_all");
    var key, r := CancelAllKey(rid), CancelAllRequested(w.mem.nextSeq);
    CancelAllClaims(w);
    Claimed(w, key, r);
    var w1 := Transmit(Claim(w, key, r), rid);
    forall cid
      ensures Untouched(w1.log, rid, cid)
    {
      IntentTouchesNone(w.log, w1.log[|w.log|], rid, cid);
    }
    hide Good, MakeId, Id, ClaimOk, HasKey, Persist, CancelEach, Hits, First, Live;
    if reply.Answer? {
      SweepBooks(w1, rid, reply.value);
      SameHits(w.mem, w1.mem, reply.value);
    }
  }

  lemma IntentTouchesNone(log: Log, e: Entry, rid: string, cid: string)
    requires Untouched(log, rid, cid) && e.key == Some(ForOrder(CancelAllKey(rid)))
    ensures Untouched(log + [e], rid, cid)
  {
    HasKeyAfter(log, e, ForOrder(CancelAllPendingKey(cid, rid)));
    HasKeyAfter(log, e, ForOrder(CancelAllConfirmKey(cid, rid)));
  }

  lemma {:induction false} SameHits(m: Memory, m': Memory, orders: seq<VenueOrder>)
    requires m'.snapshots == m.snapshots
    ensures Hits(m', orders) == Hits(m, orders) && forall cid :: Hit(m', orders, cid) <==> Hit(m, orders, cid)
  {
    if orders != [] {
      SameHits(m, m', orders[..|orders| - 1]);
    }
  }
}
