/**
 The order manager as functions of its memory and the shared log: what each public call
 persists, transmits and answers.  Venue replies are inputs.
 */
module Orders {
  import opened Wrappers
  import opened Text
  import opened EventLog
  import opened OrderStates
  import opened R = Records

  datatype Snapshot = Snapshot(state: State, exchangeId: Option<string>, terms: Terms, filled: real)

  datatype Memory = Memory(
    snapshots: map<string, Snapshot>,
    processed: map<string, set<string>>,
    nextSeq: nat)

  const Initial: Memory := Memory(map[], map[], 1)

  function ProcessedOf(m: Memory, cid: string): set<string> {
    if cid in m.processed then m.processed[cid] else {}
  }

  // ---- identifiers ----

  function MakeId(om: string, number: nat, suffix: string): string {
    Minted("om:" + om + ":", number, suffix)
  }

  /** Ids of one manager differ as soon as their sequence numbers do. */
  lemma MakeIdInjective(om: string, m: nat, s: string, n: nat, t: string)
    requires MakeId(om, m, s) == MakeId(om, n, t)
    ensures m == n && s == t
  {
    MintedInjective("om:" + om + ":", m, s, n, t);
  }

  // ---- applying one record ----

  function NumberOf(r: OrderRecord): Option<nat> {
    match r
    case OrderSubmitted(n, _, _) => Some(n)
    case AmendRequested(n, _) => Some(n)
    case CancelAllRequested(n) => Some(n)
    case StatusUpdate(claimed, _, _, _, _, _) => claimed
    case _ => None
  }

  function Bump(m: Memory, r: OrderRecord): Memory {
    match NumberOf(r)
    case Some(n) => m.(nextSeq := if n + 1 > m.nextSeq then n + 1 else m.nextSeq)
    case None => m
  }

  /** A venue id that is missing or empty leaves the known one in place. */
  function KnownId(reported: Option<string>, known: Option<string>): Option<string> {
    if reported.Some? && reported.value != "" then reported else known
  }

  /** Applies one persisted record; None is the replay-integrity error. */
  function Apply(before: Memory, r: OrderRecord): Option<Memory> {
    var m := Bump(before, r);
    match r
    case OrderSubmitted(_, cid, terms) =>
      Some(m.(snapshots := m.snapshots[cid := Snapshot(Submitted, None, terms, 0.0)],
              processed := if cid in m.processed then m.processed else m.processed[cid := {}]))
    case AmendRequested(_, _) => Some(m)
    case CancelAllRequested(_) => Some(m)
    case StatusUpdate(_, cid, trigger, source, target, exchangeId) =>
      if cid !in m.snapshots || m.snapshots[cid].state != source || Next(source, trigger) != Some(target) then None
      else
        var s := m.snapshots[cid];
        Some(m.(snapshots := m.snapshots[cid := s.(state := target, exchangeId := KnownId(exchangeId, s.exchangeId))]))
    case OrderFilled(cid, trigger, source, target, fillId, quantity) =>
      if cid !in m.snapshots || m.snapshots[cid].state != source || Next(source, trigger) != Some(target) then None
      else
        var s := m.snapshots[cid];
        Some(m.(snapshots := m.snapshots[cid := s.(state := target, filled := s.filled + quantity)],
                processed := m.processed[cid := ProcessedOf(m, cid) + {fillId}]))
    case Amended(cid, newQuantity, newLimit) =>
      if cid !in m.snapshots then None
      else
        var s := m.snapshots[cid];
        var terms := s.terms.(quantity := if newQuantity != 0.0 then newQuantity else s.terms.quantity,
                              limitPrice := newLimit);
        Some(m.(snapshots := m.snapshots[cid := s.(terms := terms)]))
  }

  /** Memory rebuilt from the log; records of other components are passed over. */
  function Replay(log: Log): Option<Memory> {
    if log == [] then Some(Initial)
    else
      var before, e := Replay(log[..|log| - 1]), log[|log| - 1];
      if before.Some? && e.payload.Order? then Apply(before.value, e.payload.order) else before
  }

  // ---- the world of one manager ----

  /** A mutation handed to the venue: its id, and the length of the log at that moment. */
  datatype Sent = Sent(at: nat, id: string)

  datatype World = World(om: string, mem: Memory, log: Log, sent: seq<Sent>)

  datatype Error = NotFound | Illegal | Inconsistent | BadRequest | VenueError
  datatype Outcome = Snap(snapshot: Snapshot) | Snaps(snapshots: seq<Snapshot>) | Raised(error: Error)

  datatype Reply<+T> = Answer(value: T) | VenueDown

  datatype Status = NewStatus | AcknowledgedStatus | PartiallyFilledStatus | FilledStatus
                  | CancelledStatus | RejectedStatus | UnknownStatus
  datatype VenueOrder = VenueOrder(
    cid: string, exchangeId: Option<string>, status: Status, quantity: real, limit: Option<real>)

  function TakeNumber(w: World): World {
    w.(mem := w.mem.(nextSeq := w.mem.nextSeq + 1))
  }

  /** Persist, then apply; a key that is already in the log changes nothing. */
  function Persist(w: World, key: OrderKey, r: OrderRecord): World {
    if HasKey(w.log, ForOrder(key)) then w
    else w.(log := Appended(w.log, Some(ForOrder(key)), Order(r)), mem := Apply(w.mem, r).GetOr(Bump(w.mem, r)))
  }

  function Transmit(w: World, id: string): World {
    w.(sent := w.sent + [Sent(|w.log|, id)])
  }

  function Answered(w: World, cid: string): Outcome {
    if cid in w.mem.snapshots then Snap(w.mem.snapshots[cid]) else Raised(NotFound)
  }

  function TriggerFor(status: Status): Option<Trigger> {
    match status
    case AcknowledgedStatus => Some(Acknowledge)
    case CancelledStatus => Some(CancelConfirmed)
    case RejectedStatus => Some(Reject)
    case _ => None
  }

  function IngestStatus(w: World, cid: string, status: Status, exchangeId: Option<string>): (World, Outcome) {
    if cid !in w.mem.snapshots then (w, Raised(NotFound))
    else
      var current := w.mem.snapshots[cid].state;
      match TriggerFor(status)
      case None => (w, Answered(w, cid))
      case Some(t) =>
        if Next(current, t).Some? then
          var w1 := Persist(w, StatusKey(cid, t, current),
                            StatusUpdate(None, cid, t, current, Next(current, t).value, exchangeId));
          (w1, Answered(w1, cid))
        else if Stale(current, t) then (w, Answered(w, cid))
        else (w, Raised(Inconsistent))
  }

  predicate RequestOk(terms: Terms) {
    terms.quantity > 0.0 && (terms.limitPrice.Some? ==> terms.limitPrice.value > 0.0)
  }

  /** An ambiguous failure: recorded when the table allows it, and raised in any case. */
  function RecordFailure(w: World, cid: string, t: Trigger, key: OrderKey): (World, Outcome) {
    if cid !in w.mem.snapshots then (w, Raised(VenueError))
    else
      var current := w.mem.snapshots[cid].state;
      if Next(current, t).None? then (w, Raised(VenueError))
      else (Persist(w, key, StatusUpdate(None, cid, t, current, Next(current, t).value, None)), Raised(VenueError))
  }

  /** Placing under the id minted for it: persist, transmit, then record what the venue said. */
  function PlaceAs(w: World, cid: string, terms: Terms, reply: Reply<VenueOrder>): (World, Outcome) {
    var w1 := Persist(TakeNumber(w), SubmitKey(cid), OrderSubmitted(w.mem.nextSeq, cid, terms));
    if !RequestOk(terms) then (w1, Raised(BadRequest))
    else
      var w2 := Transmit(w1, cid);
      match reply
      case VenueDown => RecordFailure(w2, cid, SubmitFailed, SubmitFailedKey(cid))
      case Answer(order) =>
        IngestStatus(w2, cid, if order.status.RejectedStatus? then RejectedStatus else AcknowledgedStatus, order.exchangeId)
  }

  function PlaceOrder(w: World, terms: Terms, reply: Reply<VenueOrder>): (World, Outcome) {
    PlaceAs(w, MakeId(w.om, w.mem.nextSeq, "place"), terms, reply)
  }

  function AmendAs(w: World, rid: string, cid: string, reply: Reply<VenueOrder>): (World, Outcome) {
    var w1 := Persist(TakeNumber(w), AmendRequestKey(cid, rid), AmendRequested(w.mem.nextSeq, cid));
    var w2 := Transmit(w1, rid);
    match reply
    case VenueDown => (w2, Raised(VenueError))
    case Answer(order) =>
      var w3 := Persist(w2, AmendKey(cid, rid), Amended(cid, order.quantity, order.limit));
      (w3, Answered(w3, cid))
  }

  function AmendOrder(w: World, cid: string, quantity: Option<real>, limit: Option<real>, reply: Reply<VenueOrder>)
    : (World, Outcome)
  {
    if quantity.None? && limit.None? then (w, Raised(BadRequest))
    else if cid !in w.mem.snapshots then (w, Raised(NotFound))
    else if w.mem.snapshots[cid].state !in {Acknowledged, PartiallyFilled} then (w, Raised(Illegal))
    else if w.mem.snapshots[cid].exchangeId.None? then (w, Raised(Inconsistent))
    else AmendAs(w, MakeId(w.om, w.mem.nextSeq, "amend"), cid, reply)
  }

  function CancelAs(w: World, rid: string, cid: string, current: State, reply: Reply<VenueOrder>): (World, Outcome)
    requires Next(current, CancelRequested).Some?
  {
    var w1 := Persist(TakeNumber(w), CancelKey(cid, rid),
      StatusUpdate(Some(w.mem.nextSeq), cid, CancelRequested, current, Next(current, CancelRequested).value, None));
    var w2 := Transmit(w1, rid);
    match reply
    case VenueDown => RecordFailure(w2, cid, CancelFailed, CancelFailedKey(cid, rid))
    case Answer(order) => IngestStatus(w2, cid, order.status, order.exchangeId)
  }

  function CancelOrder(w: World, cid: string, reply: Reply<VenueOrder>): (World, Outcome) {
    if cid !in w.mem.snapshots then (w, Raised(NotFound))
    else
      var current := w.mem.snapshots[cid].state;
      if current == CancelPending then (w, Answered(w, cid))
      else if Next(current, CancelRequested).None? then (w, Raised(Illegal))
      else if w.mem.snapshots[cid].exchangeId.None? then (w, Raised(Inconsistent))
      else CancelAs(w, MakeId(w.om, w.mem.nextSeq, "cancel"), cid, current, reply)
  }

  /** One order of a cancel-all answer: through pending, if it was live, to cancelled. */
  function CancelListed(w: World, rid: string, order: VenueOrder): (World, seq<Snapshot>) {
    var cid := order.cid;
    if cid !in w.mem.snapshots then (w, [])
    else
      var current := w.mem.snapshots[cid].state;
      var w1 := if current in {Acknowledged, PartiallyFilled}
                then Persist(w, CancelAllPendingKey(cid, rid),
                             StatusUpdate(None, cid, CancelRequested, current, CancelPending, None))
                else w;
      if current in {Acknowledged, PartiallyFilled, CancelPending} then
        var w2 := Persist(w1, CancelAllConfirmKey(cid, rid),
                          StatusUpdate(None, cid, CancelConfirmed, CancelPending, Cancelled, order.exchangeId));
        (w2, if cid in w2.mem.snapshots then [w2.mem.snapshots[cid]] else [])
      else (w1, [])
  }

  function CancelEach(w: World, rid: string, orders: seq<VenueOrder>): (World, seq<Snapshot>) {
    if orders == [] then (w, [])
    else
      var (w1, done) := CancelEach(w, rid, orders[..|orders| - 1]);
      var (w2, more) := CancelListed(w1, rid, orders[|orders| - 1]);
      (w2, done + more)
  }

  function CancelAllAs(w: World, rid: string, reply: Reply<seq<VenueOrder>>): (World, Outcome) {
    var w1 := Transmit(Persist(TakeNumber(w), CancelAllKey(rid), CancelAllRequested(w.mem.nextSeq)), rid);
    match reply
    case VenueDown => (w1, Raised(VenueError))
    case Answer(orders) =>
      var (w2, done) := CancelEach(w1, rid, orders);
      (w2, Snaps(done))
  }

  function CancelAll(w: World, reply: Reply<seq<VenueOrder>>): (World, Outcome) {
    CancelAllAs(w, MakeId(w.om, w.mem.nextSeq, "cancel_all"), reply)
  }

  /** A fill of an order that is already finished: remembered in memory only. */
  function LateFill(w: World, cid: string, fillId: string): World {
    w.(mem := w.mem.(processed := w.mem.processed[cid := ProcessedOf(w.mem, cid) + {fillId}]))
  }

  function ReportFill(w: World, cid: string, fill: Fill): (World, Outcome) {
    if cid !in w.mem.snapshots then (w, Raised(NotFound))
    else
      var s := w.mem.snapshots[cid];
      if fill.id in ProcessedOf(w.mem, cid) then (w, Snap(s))
      else if Terminal(s.state) then
        (LateFill(w, cid, fill.id), Snap(s))
      else
        var t := if s.filled + fill.quantity >= s.terms.quantity then FullFill else PartialFill;
        if Next(s.state, t).None? then (w, Raised(Inconsistent))
        else
          var w1 := Persist(w, FillKey(cid, fill.id),
                            OrderFilled(cid, t, s.state, Next(s.state, t).value, fill.id, fill.quantity));
          (w1, Answered(w1, cid))
  }

  /** `found` is the venue's answer to a search (no exchange id known) or to a status query. */
  function ResyncOrder(w: World, cid: string, found: Reply<Option<VenueOrder>>): (World, Outcome) {
    if cid !in w.mem.snapshots then (w, Raised(NotFound))
    else if w.mem.snapshots[cid].exchangeId.None? && !RequestOk(w.mem.snapshots[cid].terms) then (w, Raised(BadRequest))
    else match found
      case VenueDown => (w, Raised(VenueError))
      case Answer(None) => (w, Answered(w, cid))
      case Answer(Some(order)) => IngestStatus(w, cid, order.status, order.exchangeId)
  }

  // ---- calls ----

  datatype Call =
    | Place(terms: Terms, placed: Reply<VenueOrder>)
    | Amend(cid: string, quantity: Option<real>, limit: Option<real>, amended: Reply<VenueOrder>)
    | Cancel(cid: string, cancelled: Reply<VenueOrder>)
    | CancelEverything(answers: Reply<seq<VenueOrder>>)
    | Fill(cid: string, fill: R.Fill)
    | Update(cid: string, order: VenueOrder)
    | Resync(cid: string, found: Reply<Option<VenueOrder>>)

  function Do(w: World, c: Call): (World, Outcome) {
    match c
    case Place(terms, reply) => PlaceOrder(w, terms, reply)
    case Amend(cid, quantity, limit, reply) => AmendOrder(w, cid, quantity, limit, reply)
    case Cancel(cid, reply) => CancelOrder(w, cid, reply)
    case CancelEverything(reply) => CancelAll(w, reply)
    case Fill(cid, fill) => ReportFill(w, cid, fill)
    case Update(cid, order) => IngestStatus(w, cid, order.status, order.exchangeId)
    case Resync(cid, found) => ResyncOrder(w, cid, found)
  }
}
