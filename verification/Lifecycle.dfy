/** Experiment lifecycle: states, the transition table and the states a decision gates. */
module Lifecycle {

  datatype State =
    | Proposed | Validating | EvidenceSealed | InReview | Approved | Rejected | Deferred
    | Shakedown | FullProduction | Frozen | Retiring | Retired | Withdrawn

  function Allowed(s: State): set<State> {
    match s
    case Proposed => {Validating, Withdrawn}
    case Validating => {EvidenceSealed, Withdrawn}
    case EvidenceSealed => {InReview}
    case InReview => {Approved, Rejected, Deferred}
    case Approved => {Shakedown}
    case Shakedown => {FullProduction, Frozen, Retiring}
    case FullProduction => {Frozen, Retiring}
    case Frozen => {Retiring}
    case Retiring => {Retired}
    case Retired => {}
    case Rejected => {}
    case Deferred => {}
    case Withdrawn => {}
  }

  predicate Legal(source: State, target: State) {
    target in Allowed(source)
  }

  /** Only a recorded governance decision enters these. */
  predicate Gated(s: State) {
    s in {Approved, Rejected, Deferred}
  }

  /** The states an experiment can be in once it was approved. */
  predicate PastApproval(s: State) {
    s in {Approved, Shakedown, FullProduction, Frozen, Retiring, Retired}
  }

  /** The states that lie behind the sealing of evidence. */
  predicate Evidenced(s: State) {
    s == EvidenceSealed || s == InReview || Gated(s) || PastApproval(s)
  }

  /** Which states lead into a state. */
  lemma CameFrom(source: State, target: State)
    ensures Legal(source, target) <==> source in (match target
      case Proposed => {}
      case Validating => {Proposed}
      case Withdrawn => {Proposed, Validating}
      case EvidenceSealed => {Validating}
      case InReview => {EvidenceSealed}
      case Approved | Rejected | Deferred => {InReview}
      case Shakedown => {Approved}
      case FullProduction => {Shakedown}
      case Frozen => {Shakedown, FullProduction}
      case Retiring => {Shakedown, FullProduction, Frozen}
      case Retired => {Retiring})
  {
  }

  /** Sealed evidence and review are the only way in, and a decision the only way on. */
  lemma WayToApproval(source: State, target: State)
    requires Legal(source, target)
    ensures Evidenced(target) ==> target == EvidenceSealed || Evidenced(source)
    ensures Evidenced(source) ==> Evidenced(target)
    ensures Gated(target) ==> source == InReview
    ensures PastApproval(target) && !Gated(target) ==> PastApproval(source)
    ensures source == InReview ==> Gated(target)
  {
  }
}
