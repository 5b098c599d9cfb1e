/** Position lifecycle: states, triggers, the frozen transition table and the staleness ranks. */
module PositionStates {
  import opened Wrappers

  datatype State =
    | New | Open | PartiallyFilled | FullyFilled | T1Reached | BreakevenActive
    | T2Reached | StopTriggered | Closed | Archived

  datatype Trigger =
    | FirstFill | EntryPartial | EntryComplete | T1 | Breakeven | T2 | Stop | Close | CompleteClose | Archive

  function Next(s: State, t: Trigger): Option<State> {
    match (s, t)
    case (New, FirstFill) => Some(Open)

    case (Open, EntryPartial) => Some(PartiallyFilled)
    case (Open, EntryComplete) => Some(FullyFilled)

    case (PartiallyFilled, EntryPartial) => Some(PartiallyFilled)
    case (PartiallyFilled, EntryComplete) => Some(FullyFilled)
    case (PartiallyFilled, Close) => Some(Closed)
    case (PartiallyFilled, Stop) => Some(StopTriggered)

    case (FullyFilled, T1) => Some(T1Reached)
    case (FullyFilled, Stop) => Some(StopTriggered)
    case (FullyFilled, Close) => Some(Closed)

    case (T1Reached, Breakeven) => Some(BreakevenActive)

    case (BreakevenActive, T2) => Some(T2Reached)
    case (BreakevenActive, Stop) => Some(StopTriggered)
    case (BreakevenActive, Close) => Some(Closed)

    case (T2Reached, CompleteClose) => Some(Closed)
    case (StopTriggered, CompleteClose) => Some(Closed)

    case (Closed, Archive) => Some(Archived)

    case _ => None
  }

  /** No outgoing edge at all: only the archived state. */
  predicate Terminal(s: State) {
    s == Archived
  }

  function Rank(s: State): nat {
    match s
    case New => 0
    case Open => 1
    case PartiallyFilled => 2
    case FullyFilled => 3
    case T1Reached => 4
    case BreakevenActive => 5
    case T2Reached | StopTriggered => 6
    case Closed => 7
    case Archived => 8
  }

  function MinTargetRank(t: Trigger): nat {
    match t
    case FirstFill => 1
    case EntryPartial => 2
    case EntryComplete => 3
    case T1 => 4
    case Breakeven => 5
    case T2 | Stop => 6
    case Close | CompleteClose => 7
    case Archive => 8
  }

  lemma TerminalMeansNoEdge(s: State)
    ensures Terminal(s) <==> forall t :: Next(s, t).None?
  {
    if !Terminal(s) {
      var t := match s
        case New => FirstFill
        case Open => EntryPartial
        case PartiallyFilled | FullyFilled | BreakevenActive => Close
        case T1Reached => Breakeven
        case T2Reached | StopTriggered => CompleteClose
        case _ => Archive;
      assert Next(s, t).Some?;
    }
  }

  lemma MinTargetRankIsMinimum(t: Trigger)
    ensures forall s :: Next(s, t).Some? ==> MinTargetRank(t) <= Rank(Next(s, t).value)
    ensures exists s :: Next(s, t).Some? && MinTargetRank(t) == Rank(Next(s, t).value)
  {
    var s := match t
      case FirstFill => New
      case EntryPartial | EntryComplete => Open
      case T1 | Stop | Close => FullyFilled
      case Breakeven => T1Reached
      case T2 => BreakevenActive
      case CompleteClose => T2Reached
      case Archive => Closed;
    assert Next(s, t).Some? && MinTargetRank(t) == Rank(Next(s, t).value);
  }

  /** States in which the entry is still being filled. */
  predicate Entering(s: State) {
    s in {New, Open, PartiallyFilled}
  }

  predicate ExitTrigger(t: Trigger) {
    t in {T1, T2, Stop, Close}
  }

  /** The table fact behind the books: once an exit is recorded, no entry fill can follow. */
  lemma NoEntryAfterExit(s: State, t: Trigger, u: Trigger)
    requires ExitTrigger(t) && Next(s, t).Some?
    ensures !Entering(Next(s, t).value)
    ensures Next(Next(s, t).value, u).Some? ==> !Entering(Next(Next(s, t).value, u).value)
  {
  }

  datatype Verdict = Moves(to: State) | StaleNoOp | Contradiction

  /** Legal, stale, or a contradiction that must surface. */
  function TryTransition(s: State, t: Trigger): Verdict {
    if Next(s, t).Some? then Moves(Next(s, t).value)
    else if Terminal(s) || Rank(s) >= MinTargetRank(t) then StaleNoOp
    else Contradiction
  }

  /** The edges as the lifecycle is documented: entry, scaling out, stopping, closing, archiving. */
  const EDGES: set<(State, Trigger, State)> := {
    (New, FirstFill, Open), (Open, EntryPartial, PartiallyFilled), (Open, EntryComplete, FullyFilled),
    (PartiallyFilled, EntryPartial, PartiallyFilled), (PartiallyFilled, EntryComplete, FullyFilled),
    (FullyFilled, T1, T1Reached), (T1Reached, Breakeven, BreakevenActive), (BreakevenActive, T2, T2Reached),
    (PartiallyFilled, Stop, StopTriggered), (FullyFilled, Stop, StopTriggered), (BreakevenActive, Stop, StopTriggered),
    (PartiallyFilled, Close, Closed), (FullyFilled, Close, Closed), (BreakevenActive, Close, Closed),
    (T2Reached, CompleteClose, Closed), (StopTriggered, CompleteClose, Closed), (Closed, Archive, Archived)}

  /**
   What becomes of any trigger in any state.  It moves the position along an edge; it
   surfaces as a contradiction in exactly the states it comes too early for; anywhere else
   it is old news.
   */
  lemma VerdictsAre(s: State, t: Trigger)
    ensures forall to :: TryTransition(s, t) == Moves(to) <==> (s, t, to) in EDGES
    ensures TryTransition(s, t) == Contradiction <==>
      match t
      case FirstFill => false
      case EntryPartial | EntryComplete => s == New
      case T1 => s in {New, Open, PartiallyFilled}
      case Breakeven => s in {New, Open, PartiallyFilled, FullyFilled}
      case T2 => s in {New, Open, PartiallyFilled, FullyFilled, T1Reached}
      case Stop => s in {New, Open, T1Reached}
      case Close => s in {New, Open, T1Reached, T2Reached, StopTriggered}
      case CompleteClose => s in {New, Open, PartiallyFilled, FullyFilled, T1Reached, BreakevenActive}
      case Archive => s !in {Closed, Archived}
  {
  }

  lemma RankNeverFalls(s: State, t: Trigger)
    requires Next(s, t).Some?
    ensures Rank(s) <= Rank(Next(s, t).value)
  {
  }
}
