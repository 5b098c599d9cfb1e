/** Order lifecycle: states, triggers, the frozen transition table and the staleness ranks. */
module OrderStates {
  import opened Wrappers

  datatype State =
    | New | Submitted | Acknowledged | PartiallyFilled | Filled | CancelPending
    | Cancelled | Rejected | Expired | Failed

  datatype Trigger =
    | Submit | Acknowledge | Reject | SubmitFailed | PartialFill | FullFill | CancelRequested
    | CancelRetryAcknowledged | CancelConfirmed | CancelFailed | Expire

  function Next(s: State, t: Trigger): Option<State> {
    match (s, t)
    case (New, Submit) => Some(Submitted)

    case (Submitted, Acknowledge) => Some(Acknowledged)
    case (Submitted, Reject) => Some(Rejected)
    case (Submitted, SubmitFailed) => Some(Failed)

    case (Acknowledged, PartialFill) => Some(PartiallyFilled)
    case (Acknowledged, FullFill) => Some(Filled)
    case (Acknowledged, CancelRequested) => Some(CancelPending)
    case (Acknowledged, Expire) => Some(Expired)

    case (PartiallyFilled, PartialFill) => Some(PartiallyFilled)
    case (PartiallyFilled, FullFill) => Some(Filled)
    case (PartiallyFilled, CancelRequested) => Some(CancelPending)
    case (PartiallyFilled, Expire) => Some(Expired)
    case (PartiallyFilled, CancelConfirmed) => Some(Cancelled)

    case (CancelPending, CancelConfirmed) => Some(Cancelled)
    case (CancelPending, PartialFill) => Some(PartiallyFilled)
    case (CancelPending, FullFill) => Some(Filled)
    case (CancelPending, CancelRetryAcknowledged) => Some(CancelPending)
    case (CancelPending, CancelFailed) => Some(Failed)

    case _ => None
  }

  predicate Terminal(s: State) {
    s in {Filled, Cancelled, Rejected, Expired, Failed}
  }

  function Rank(s: State): nat {
    match s
    case New => 0
    case Submitted => 1
    case Acknowledged => 2
    case PartiallyFilled | CancelPending => 3
    case Filled | Cancelled | Rejected | Expired | Failed => 4
  }

  /** The smallest rank a trigger can lead to. */
  function MinTargetRank(t: Trigger): nat {
    match t
    case Submit => 1
    case Acknowledge => 2
    case PartialFill | CancelRequested | CancelRetryAcknowledged => 3
    case Reject | SubmitFailed | FullFill | CancelConfirmed | CancelFailed | Expire => 4
  }

  /** The terminal states are exactly those without an outgoing edge. */
  lemma TerminalMeansNoEdge(s: State)
    ensures Terminal(s) <==> forall t :: Next(s, t).None?
  {
    if !Terminal(s) {
      var t := match s case New => Submit case Submitted => Acknowledge case _ => if s == CancelPending then CancelConfirmed else FullFill;
      assert Next(s, t).Some?;
    }
  }

  /** The table by trigger: where each one leads, and from which states it is legal. */
  lemma TriggersLead(s: State, t: Trigger)
    ensures Next(s, t) == match t
      case Submit => if s == New then Some(Submitted) else None
      case Acknowledge => if s == Submitted then Some(Acknowledged) else None
      case Reject => if s == Submitted then Some(Rejected) else None
      case SubmitFailed => if s == Submitted then Some(Failed) else None
      case PartialFill => if s in {Acknowledged, PartiallyFilled, CancelPending} then Some(PartiallyFilled) else None
      case FullFill => if s in {Acknowledged, PartiallyFilled, CancelPending} then Some(Filled) else None
      case CancelRequested => if s in {Acknowledged, PartiallyFilled} then Some(CancelPending) else None
      case CancelConfirmed => if s in {PartiallyFilled, CancelPending} then Some(Cancelled) else None
      case CancelRetryAcknowledged => if s == CancelPending then Some(CancelPending) else None
      case CancelFailed => if s == CancelPending then Some(Failed) else None
      case Expire => if s in {Acknowledged, PartiallyFilled} then Some(Expired) else None
  {
  }

  /** MinTargetRank is attained, and is a lower bound over all edges of the trigger. */
  lemma MinTargetRankIsMinimum(t: Trigger)
    ensures forall s :: Next(s, t).Some? ==> MinTargetRank(t) <= Rank(Next(s, t).value)
    ensures exists s :: Next(s, t).Some? && MinTargetRank(t) == Rank(Next(s, t).value)
  {
    var s := match t
      case Submit => New
      case Acknowledge | Reject | SubmitFailed => Submitted
      case CancelRetryAcknowledged | CancelConfirmed | CancelFailed => CancelPending
      case _ => Acknowledged;
    assert Next(s, t).Some? && MinTargetRank(t) == Rank(Next(s, t).value);
  }

  predicate Stale(s: State, t: Trigger) {
    Next(s, t).None? && (Terminal(s) || Rank(s) >= MinTargetRank(t))
  }

  /** The triggers a venue status can stand for. */
  predicate FromVenue(t: Trigger) {
    t in {Acknowledge, CancelConfirmed, Reject}
  }

  /** What an order's state can be later on, as far as ranks tell: no lower, and the same once terminal. */
  predicate MayFollow(s: State, later: State) {
    Rank(s) <= Rank(later) && (Terminal(s) ==> later == s)
  }

  /** The trigger is stale in a state, and legal in one that may follow it. */
  predicate LegalAgain(t: Trigger, s: State, later: State) {
    Stale(s, t) && MayFollow(s, later) && Next(later, t).Some?
  }

  /**
   Ranks hide a legal update of two triggers and of no other: a cancel request, stale while
   one is pending, and the acknowledgement of a retried cancel, stale before one is
   pending.  In both cases one edge of the table is enough.
   */
  lemma StaleBecomesLegal(t: Trigger)
    ensures (exists s, later :: LegalAgain(t, s, later)) <==> t == CancelRequested || t == CancelRetryAcknowledged
    ensures (exists s, u: Trigger :: Next(s, u).Some? && LegalAgain(t, s, Next(s, u).value))
       <==> t == CancelRequested || t == CancelRetryAcknowledged
  {
    if t == CancelRequested {
      assert Next(CancelPending, PartialFill) == Some(PartiallyFilled) && LegalAgain(t, CancelPending, PartiallyFilled);
    } else if t == CancelRetryAcknowledged {
      assert Next(PartiallyFilled, CancelRequested) == Some(CancelPending) && LegalAgain(t, PartiallyFilled, CancelPending);
    }
  }

  /**
   A status ignored as stale is one the table will not accept later either: it stays illegal
   in every state of the same or a higher rank, and a terminal state never changes.
   */
  lemma StaleNeverHidesALegalUpdate(s: State, t: Trigger, later: State)
    requires FromVenue(t) && Stale(s, t)
    requires Rank(s) <= Rank(later) && (Terminal(s) ==> later == s)
    ensures Next(later, t).None?
  {
    StaleBecomesLegal(t);
    assert !LegalAgain(t, s, later);
  }
}
