/** The execution lifecycle: states, triggers and the frozen transition table. */
module ExecutionStates {
  import opened Wrappers

  datatype State =
    | Initializing | Reconciling | Ready | SignalPending | OrderPending | PartiallyFilled
    | PositionOpen | PositionClosing | Flat | SoftKill | HardKill | EmergencyKill | Stopped

  datatype Trigger =
    | Started | Reconciled | ReconciliationFailed | SignalReceived | SignalRejected | OrderPlaced
    | OrderRejected | OrderCancelled | PartialFillReceived | FullyFilled | RemainderFilled
    | StopAdjusted | PartialTakeProfitFilled | CloseInitiated | PartialCloseFilled | CloseCompleted
    | ReadyForNext | SoftKillTriggered | HardKillTriggered | EmergencyKillTriggered
    | FlattenFillReceived | Resume | Shutdown

  /** The target of an edge; None when the pair is not in the table. */
  function Next(s: State, t: Trigger): Option<State> {
    match (s, t)
    case (Initializing, Started) => Some(Reconciling)
    case (Initializing, EmergencyKillTriggered) => Some(EmergencyKill)
    case (Initializing, Shutdown) => Some(Stopped)

    case (Reconciling, Reconciled) => Some(Ready)
    case (Reconciling, ReconciliationFailed) => Some(SoftKill)
    case (Reconciling, SoftKillTriggered) => Some(SoftKill)
    case (Reconciling, HardKillTriggered) => Some(HardKill)
    case (Reconciling, EmergencyKillTriggered) => Some(EmergencyKill)
    case (Reconciling, Shutdown) => Some(Stopped)

    case (Ready, SignalReceived) => Some(SignalPending)
    case (Ready, SoftKillTriggered) => Some(SoftKill)
    case (Ready, HardKillTriggered) => Some(HardKill)
    case (Ready, EmergencyKillTriggered) => Some(EmergencyKill)
    case (Ready, Shutdown) => Some(Stopped)

    case (SignalPending, OrderPlaced) => Some(OrderPending)
    case (SignalPending, SignalRejected) => Some(Ready)
    case (SignalPending, SoftKillTriggered) => Some(SoftKill)
    case (SignalPending, HardKillTriggered) => Some(HardKill)
    case (SignalPending, EmergencyKillTriggered) => Some(EmergencyKill)

    case (OrderPending, PartialFillReceived) => Some(PartiallyFilled)
    case (OrderPending, FullyFilled) => Some(PositionOpen)
    case (OrderPending, OrderRejected) => Some(Ready)
    case (OrderPending, OrderCancelled) => Some(Ready)
    case (OrderPending, SoftKillTriggered) => Some(SoftKill)
    case (OrderPending, HardKillTriggered) => Some(HardKill)
    case (OrderPending, EmergencyKillTriggered) => Some(EmergencyKill)

    case (PartiallyFilled, PartialFillReceived) => Some(PartiallyFilled)
    case (PartiallyFilled, RemainderFilled) => Some(PositionOpen)
    case (PartiallyFilled, SoftKillTriggered) => Some(SoftKill)
    case (PartiallyFilled, HardKillTriggered) => Some(HardKill)
    case (PartiallyFilled, EmergencyKillTriggered) => Some(EmergencyKill)

    case (PositionOpen, StopAdjusted) => Some(PositionOpen)
    case (PositionOpen, PartialTakeProfitFilled) => Some(PositionOpen)
    case (PositionOpen, CloseInitiated) => Some(PositionClosing)
    case (PositionOpen, SoftKillTriggered) => Some(SoftKill)
    case (PositionOpen, HardKillTriggered) => Some(HardKill)
    case (PositionOpen, EmergencyKillTriggered) => Some(EmergencyKill)

    case (PositionClosing, PartialCloseFilled) => Some(PositionClosing)
    case (PositionClosing, CloseCompleted) => Some(Flat)
    case (PositionClosing, SoftKillTriggered) => Some(SoftKill)
    case (PositionClosing, HardKillTriggered) => Some(HardKill)
    case (PositionClosing, EmergencyKillTriggered) => Some(EmergencyKill)

    case (Flat, ReadyForNext) => Some(Ready)
    case (Flat, SoftKillTriggered) => Some(SoftKill)
    case (Flat, HardKillTriggered) => Some(HardKill)
    case (Flat, EmergencyKillTriggered) => Some(EmergencyKill)
    case (Flat, Shutdown) => Some(Stopped)

    case (SoftKill, Resume) => Some(Reconciling)
    case (SoftKill, HardKillTriggered) => Some(HardKill)
    case (SoftKill, EmergencyKillTriggered) => Some(EmergencyKill)
    case (SoftKill, Shutdown) => Some(Stopped)

    case (HardKill, FlattenFillReceived) => Some(HardKill)
    case (HardKill, Resume) => Some(Reconciling)
    case (HardKill, EmergencyKillTriggered) => Some(EmergencyKill)
    case (HardKill, Shutdown) => Some(Stopped)

    case (EmergencyKill, Shutdown) => Some(Stopped)

    case _ => None
  }

  /**
   The table by trigger.  The kill switches work from every state that a stronger one does
   not hold, once the machine has started; it stops from its safe and killed states, and
   resumes through reconciling; every other trigger belongs to one step of trading.
   */
  lemma TriggersLead(s: State, t: Trigger)
    ensures Next(s, t) == match t
      case EmergencyKillTriggered => if s in {EmergencyKill, Stopped} then None else Some(EmergencyKill)
      case HardKillTriggered => if s in {Initializing, HardKill, EmergencyKill, Stopped} then None else Some(HardKill)
      case SoftKillTriggered => if s in {Initializing, SoftKill, HardKill, EmergencyKill, Stopped} then None else Some(SoftKill)
      case Shutdown => if s in {Initializing, Reconciling, Ready, Flat, SoftKill, HardKill, EmergencyKill} then Some(Stopped) else None
      case Resume => if s in {SoftKill, HardKill} then Some(Reconciling) else None
      case FlattenFillReceived => if s == HardKill then Some(HardKill) else None
      case Started => if s == Initializing then Some(Reconciling) else None
      case Reconciled => if s == Reconciling then Some(Ready) else None
      case ReconciliationFailed => if s == Reconciling then Some(SoftKill) else None
      case SignalReceived => if s == Ready then Some(SignalPending) else None
      case SignalRejected => if s == SignalPending then Some(Ready) else None
      case OrderPlaced => if s == SignalPending then Some(OrderPending) else None
      case OrderRejected | OrderCancelled => if s == OrderPending then Some(Ready) else None
      case PartialFillReceived => if s in {OrderPending, PartiallyFilled} then Some(PartiallyFilled) else None
      case FullyFilled => if s == OrderPending then Some(PositionOpen) else None
      case RemainderFilled => if s == PartiallyFilled then Some(PositionOpen) else None
      case StopAdjusted | PartialTakeProfitFilled => if s == PositionOpen then Some(PositionOpen) else None
      case CloseInitiated => if s == PositionOpen then Some(PositionClosing) else None
      case PartialCloseFilled => if s == PositionClosing then Some(PositionClosing) else None
      case CloseCompleted => if s == PositionClosing then Some(Flat) else None
      case ReadyForNext => if s == Flat then Some(Ready) else None
  {
  }

  predicate Edge(s: State, t: Trigger, to: State) {
    Next(s, t) == Some(to)
  }

  /** States with an order or a position in flight. */
  predicate InFlight(s: State) {
    s in {SignalPending, OrderPending, PartiallyFilled, PositionOpen, PositionClosing}
  }

  // ---- kill-switch safety over whole histories ----

  /** Consecutive states of a history are joined by edges of the table. */
  ghost predicate IsPath(states: seq<State>) {
    forall i :: 0 <= i < |states| - 1 ==> Joined(states[i], states[i + 1])
  }

  ghost predicate Joined(s: State, to: State) {
    exists t :: Edge(s, t, to)
  }

  /** After an emergency kill nothing but the emergency kill and the stop ever occurs. */
  lemma {:induction false} EmergencyKillIsFinal(states: seq<State>, i: nat, j: nat)
    requires IsPath(states) && i <= j < |states| && states[i] == EmergencyKill
    ensures states[j] == EmergencyKill || states[j] == Stopped
  {
    if i < j {
      EmergencyKillIsFinal(states, i, j - 1);
      assert Joined(states[j - 1], states[j - 1 + 1]);
    }
  }

  /** Between a soft or hard kill and any later ready state there is a reconciliation. */
  lemma {:induction false} ReconcileBeforeReady(states: seq<State>, i: nat, j: nat)
    requires IsPath(states) && i < j < |states| && states[j] == Ready
    requires states[i] == SoftKill || states[i] == HardKill
    ensures exists k :: i < k < j && states[k] == Reconciling
    decreases j - i
  {
    assert Joined(states[i], states[i + 1]);
    if states[i + 1] == SoftKill || states[i + 1] == HardKill {
      ReconcileBeforeReady(states, i + 1, j);
    } else if states[i + 1] == EmergencyKill || states[i + 1] == Stopped {
      DeadEnd(states, i + 1, j);
    } else {
      assert states[i + 1] == Reconciling;
    }
  }

  lemma {:induction false} DeadEnd(states: seq<State>, i: nat, j: nat)
    requires IsPath(states) && i <= j < |states|
    requires states[i] == EmergencyKill || states[i] == Stopped
    ensures states[j] == EmergencyKill || states[j] == Stopped
  {
    if i < j {
      DeadEnd(states, i, j - 1);
      assert Joined(states[j - 1], states[j - 1 + 1]);
    }
  }

  /** Nothing stops out from under an order or a position: a safe state comes in between. */
  lemma {:induction false} NoStopInFlight(states: seq<State>, i: nat, j: nat)
    requires IsPath(states) && i < j < |states| && InFlight(states[i]) && states[j] == Stopped
    ensures exists k :: i < k < j && states[k] in {SoftKill, HardKill, EmergencyKill, Ready, Flat}
    decreases j - i
  {
    assert Joined(states[i], states[i + 1]);
    if InFlight(states[i + 1]) {
      NoStopInFlight(states, i + 1, j);
    } else {
      assert states[i + 1] in {SoftKill, HardKill, EmergencyKill, Ready, Flat};
    }
  }
}
