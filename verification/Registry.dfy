/**
 The experiment registry as functions of its records and its log: each call appends one
 entry, a decision two, and a new process folds the same entries.
 */
module Registry {
  import opened Wrappers
  import opened Lifecycle

  /** Specification, evidence and decision are opaque texts; `at` times are opaque too. */
  datatype Evidence = Evidence(bundle: string, fingerprint: string)

  datatype Record = Record(
    fingerprint: string, parent: Option<string>, specification: string, created: string,
    sealedAt: Option<string>, evidence: Option<Evidence>, state: State, decision: Option<string>)

  type Records = map<string, Record>

  datatype Entry =
    | Created(id: string, fingerprint: string, parent: Option<string>, specification: string, at: string)
    | Sealed(id: string, at: string)
    | EvidenceAttached(id: string, evidence: Evidence)
    | StateChanged(id: string, source: State, target: State)
    | DecisionRecorded(id: string, decision: string)
    | Unrecognized

  type Log = seq<Entry>

  function NewRecord(fingerprint: string, parent: Option<string>, specification: string, at: string): Record {
    Record(fingerprint, parent, specification, at, None, None, Proposed, None)
  }

  /** Applies one entry; None is the malformed-log error. */
  function Apply(rs: Records, e: Entry): Option<Records> {
    match e
    case Created(id, fingerprint, parent, specification, at) =>
      if id in rs || (parent.Some? && parent.value !in rs) then None
      else Some(rs[id := NewRecord(fingerprint, parent, specification, at)])
    case Sealed(id, at) =>
      if id !in rs || rs[id].sealedAt.Some? then None
      else Some(rs[id := rs[id].(sealedAt := Some(at))])
    case EvidenceAttached(id, evidence) =>
      if id !in rs || rs[id].sealedAt.None? || rs[id].evidence.Some? then None
      else Some(rs[id := rs[id].(evidence := Some(evidence))])
    case StateChanged(id, source, target) =>
      if id !in rs || rs[id].state != source || !Legal(source, target) || (Gated(target) && rs[id].decision.None?) then None
      else Some(rs[id := rs[id].(state := target)])
    case DecisionRecorded(id, decision) =>
      if id !in rs || rs[id].state != InReview || rs[id].decision.Some? then None
      else Some(rs[id := rs[id].(decision := Some(decision))])
    case Unrecognized => None
  }

  function Replay(log: Log): Option<Records> {
    if log == [] then Some(map[])
    else
      var before := Replay(log[..|log| - 1]);
      if before.Some? then Apply(before.value, log[|log| - 1]) else None
  }

  // ---- calls ----

  datatype World = World(records: Records, log: Log)

  datatype Error =
    | BadValue | Duplicate | NotFound | AlreadySealed | NotSealed | EvidenceExists
    | GovernanceRequired | IllegalTransition | GuardFailed
  datatype Outcome = Done(record: Record) | Refused(error: Error)

  predicate Blank(s: string) {
    forall i :: 0 <= i < |s| ==> s[i] in " \t\n\r"
  }

  function Append(w: World, e: Entry): World {
    World(Apply(w.records, e).GetOr(w.records), w.log + [e])
  }

  function Create(w: World, id: string, specification: string, parent: Option<string>, fingerprint: string -> string, now: string)
    : (World, Outcome)
  {
    if Blank(id) || (parent.Some? && Blank(parent.value)) then (w, Refused(BadValue))
    else if id in w.records then (w, Refused(Duplicate))
    else if parent.Some? && parent.value !in w.records then (w, Refused(NotFound))
    else
      (Append(w, Created(id, fingerprint(specification), parent, specification, now)),
       Done(NewRecord(fingerprint(specification), parent, specification, now)))
  }

  function Seal(w: World, id: string, now: string): (World, Outcome) {
    if Blank(id) then (w, Refused(BadValue))
    else if id !in w.records then (w, Refused(NotFound))
    else if w.records[id].sealedAt.Some? then (w, Refused(AlreadySealed))
    else (Append(w, Sealed(id, now)), Done(w.records[id].(sealedAt := Some(now))))
  }

  function Attach(w: World, id: string, evidence: Evidence): (World, Outcome) {
    if Blank(id) || Blank(evidence.fingerprint) || evidence.bundle == "" then (w, Refused(BadValue))
    else if id !in w.records then (w, Refused(NotFound))
    else if w.records[id].sealedAt.None? then (w, Refused(NotSealed))
    else if w.records[id].evidence.Some? then (w, Refused(EvidenceExists))
    else (Append(w, EvidenceAttached(id, evidence)), Done(w.records[id].(evidence := Some(evidence))))
  }

  /** Table and guard, once governance gating is settled. */
  function Move(w: World, id: string, target: State): (World, Outcome)
    requires id in w.records
  {
    var r := w.records[id];
    if !Legal(r.state, target) then (w, Refused(IllegalTransition))
    else if target == EvidenceSealed && r.evidence.None? then (w, Refused(GuardFailed))
    else (Append(w, StateChanged(id, r.state, target)), Done(r.(state := target)))
  }

  function Transition(w: World, id: string, target: State): (World, Outcome) {
    if id !in w.records then (w, Refused(NotFound))
    else if Gated(target) then (w, Refused(GovernanceRequired))
    else Move(w, id, target)
  }

  /** Two durable entries: the decision, then the state it leads to. */
  function Decide(w: World, id: string, decision: string, target: State): (World, Outcome) {
    if !Gated(target) || decision == "" then (w, Refused(BadValue))
    else if id !in w.records then (w, Refused(NotFound))
    else if w.records[id].state != InReview || w.records[id].decision.Some? then (w, Refused(GuardFailed))
    else
      var w1 := Append(w, DecisionRecorded(id, decision));
      if id in w1.records then Move(w1, id, target) else (w1, Refused(NotFound))
  }

  datatype Call =
    | CallCreate(id: string, specification: string, parent: Option<string>, now: string)
    | CallSeal(id: string, now: string)
    | CallAttach(id: string, evidence: Evidence)
    | CallTransition(id: string, target: State)
    | CallDecide(id: string, decision: string, target: State)

  function Do(w: World, c: Call, fingerprint: string -> string): (World, Outcome) {
    match c
    case CallCreate(id, specification, parent, now) => Create(w, id, specification, parent, fingerprint, now)
    case CallSeal(id, now) => Seal(w, id, now)
    case CallAttach(id, evidence) => Attach(w, id, evidence)
    case CallTransition(id, target) => Transition(w, id, target)
    case CallDecide(id, decision, target) => Decide(w, id, decision, target)
  }

  // ---- governance safety ----

  /** What a record in a state must carry. */
  predicate Governed(r: Record) {
    && (r.evidence.Some? ==> r.sealedAt.Some?)
    && (Evidenced(r.state) ==> r.evidence.Some?)
    && (Gated(r.state) || PastApproval(r.state) ==> r.decision.Some?)
    && (r.decision.Some? ==> r.state == InReview || Gated(r.state) || PastApproval(r.state))
  }

  /** Entries the calls write: applicable, and evidence is sealed only where there is some. */
  predicate ProperEntry(rs: Records, e: Entry) {
    && Apply(rs, e).Some?
    && (e.StateChanged? && e.target == EvidenceSealed ==> rs[e.id].evidence.Some?)
  }

  predicate Proper(log: Log)
    ensures Proper(log) ==> Replay(log).Some?
  {
    log == [] || (Proper(log[..|log| - 1]) && ProperEntry(Replay(log[..|log| - 1]).value, log[|log| - 1]))
  }

  ghost predicate AllGoverned(rs: Records) {
    forall id :: id in rs ==> Governed(rs[id])
  }

  lemma GovernedByOne(rs: Records, e: Entry)
    requires AllGoverned(rs) && ProperEntry(rs, e)
    ensures AllGoverned(Apply(rs, e).value)
  {
    if e.StateChanged? {
      WayToApproval(e.source, e.target);
    }
  }

  lemma {:induction false} HistoryIsGoverned(log: Log)
    requires Proper(log)
    ensures AllGoverned(Replay(log).value)
  {
    if log != [] {
      HistoryIsGoverned(log[..|log| - 1]);
      GovernedByOne(Replay(log[..|log| - 1]).value, log[|log| - 1]);
    }
  }

  /** What a record never loses: its identity, its seal, its evidence and its decision. */
  predicate Kept(r: Record, r': Record) {
    && r'.fingerprint == r.fingerprint && r'.parent == r.parent
    && r'.specification == r.specification && r'.created == r.created
    && (r.sealedAt.Some? ==> r'.sealedAt == r.sealedAt)
    && (r.evidence.Some? ==> r'.evidence == r.evidence)
    && (r.decision.Some? ==> r'.decision == r.decision)
    && (PastApproval(r.state) ==> PastApproval(r'.state))
  }

  ghost predicate AllKept(rs: Records, rs': Records) {
    forall id :: id in rs ==> id in rs' && Kept(rs[id], rs'[id])
  }

  lemma {:induction false} ProperPrefix(log: Log, n: nat)
    requires Proper(log) && n <= |log|
    ensures Proper(log[..n])
    decreases |log|
  {
    if n == |log| {
      assert log[..n] == log;
    } else {
      assert log[..|log| - 1][..n] == log[..n];
      ProperPrefix(log[..|log| - 1], n);
    }
  }

  lemma KeptByOne(rs: Records, e: Entry)
    requires Apply(rs, e).Some?
    ensures AllKept(rs, Apply(rs, e).value)
  {
  }

  lemma {:induction false} HistoryKeeps(log: Log, n: nat)
    requires Proper(log) && n <= |log|
    ensures Proper(log[..n]) && AllKept(Replay(log[..n]).value, Replay(log).value)
    decreases |log|
  {
    ProperPrefix(log, n);
    if n == |log| {
      assert log[..n] == log;
    } else {
      var front, e := log[..|log| - 1], log[|log| - 1];
      assert front[..n] == log[..n];
      HistoryKeeps(front, n);
      KeptByOne(Replay(front).value, e);
    }
  }

  // ---- runs ----

  ghost predicate Sound(w: World) {
    Proper(w.log) && Replay(w.log) == Some(w.records)
  }

  ghost predicate SoundFrom(w0: World, w: World) {
    Sound(w) && w0.log <= w.log
  }

  lemma AppendKeeps(w: World, e: Entry)
    requires Sound(w) && ProperEntry(w.records, e)
    ensures SoundFrom(w, Append(w, e)) && Append(w, e).records == Apply(w.records, e).value
  {
  }

  lemma MoveKeeps(w: World, id: string, target: State)
    requires Sound(w) && id in w.records && (Gated(target) ==> w.records[id].decision.Some?)
    ensures SoundFrom(w, Move(w, id, target).0)
  {
    var r := w.records[id];
    if Legal(r.state, target) && (target == EvidenceSealed ==> r.evidence.Some?) {
      AppendKeeps(w, StateChanged(id, r.state, target));
    }
  }

  lemma DecideKeeps(w: World, id: string, decision: string, target: State)
    requires Sound(w)
    ensures SoundFrom(w, Decide(w, id, decision, target).0)
  {
    if Gated(target) && decision != "" && id in w.records && w.records[id].state == InReview && w.records[id].decision.None? {
      var e := DecisionRecorded(id, decision);
      AppendKeeps(w, e);
      MoveKeeps(Append(w, e), id, target);
    }
  }

  lemma DoKeeps(w: World, c: Call, fingerprint: string -> string)
    requires Sound(w)
    ensures SoundFrom(w, Do(w, c, fingerprint).0)
  {
    match c
    case CallCreate(id, specification, parent, now) =>
      if id !in w.records && (parent.Some? ==> parent.value in w.records) {
        AppendKeeps(w, Created(id, fingerprint(specification), parent, specification, now));
      }
    case CallSeal(id, now) =>
      if id in w.records && w.records[id].sealedAt.None? {
        AppendKeeps(w, Sealed(id, now));
      }
    case CallAttach(id, evidence) =>
      if id in w.records && w.records[id].sealedAt.Some? && w.records[id].evidence.None? {
        AppendKeeps(w, EvidenceAttached(id, evidence));
      }
    case CallTransition(id, target) =>
      if id in w.records && !Gated(target) {
        MoveKeeps(w, id, target);
      }
    case CallDecide(id, decision, target) => DecideKeeps(w, id, decision, target);
  }

  datatype Action = Complete(call: Call) | CrashDuring(call: Call, persisted: nat)

  /** A crash keeps the first entries the call appends; the next process folds what is there. */
  function Act(w: World, a: Action, fingerprint: string -> string): World {
    match a
    case Complete(c) => Do(w, c, fingerprint).0
    case CrashDuring(c, k) =>
      var log := Do(w, c, fingerprint).0.log;
      var cut := log[..if |w.log| + k <= |log| then |w.log| + k else |log|];
      World(Replay(cut).GetOr(map[]), cut)
  }

  function Run(w: World, actions: seq<Action>, fingerprint: string -> string): World {
    if actions == [] then w
    else Act(Run(w, actions[..|actions| - 1], fingerprint), actions[|actions| - 1], fingerprint)
  }

  lemma ActKeeps(w: World, a: Action, fingerprint: string -> string)
    requires Sound(w)
    ensures Sound(Act(w, a, fingerprint)) && w.log <= Act(w, a, fingerprint).log
  {
    DoKeeps(w, a.call, fingerprint);
    if a.CrashDuring? {
      var log := Do(w, a.call, fingerprint).0.log;
      ProperPrefix(log, if |w.log| + a.persisted <= |log| then |w.log| + a.persisted else |log|);
    }
  }

  lemma {:induction false} RunKeeps(w: World, actions: seq<Action>, fingerprint: string -> string)
    requires Sound(w)
    ensures SoundFrom(w, Run(w, actions, fingerprint))
  {
    if actions != [] {
      var before := Run(w, actions[..|actions| - 1], fingerprint);
      RunKeeps(w, actions[..|actions| - 1], fingerprint);
      ActKeeps(before, actions[|actions| - 1], fingerprint);
    }
  }

  /**
   Governance safety.  From any sound point of a run to any later one, crashes included,
   also between a decision and the state it leads to: the log replays without error to the
   records in memory; whatever is in or past approval is sealed, has its evidence and its
   decision; and no seal, evidence, decision or specification ever changes.
   */
  lemma GovernanceSafety(w: World, actions: seq<Action>, fingerprint: string -> string, id: string)
    requires Sound(w)
    ensures var w' := Run(w, actions, fingerprint);
      && Replay(w'.log) == Some(w'.records)
      && (id in w'.records && PastApproval(w'.records[id].state) ==>
            w'.records[id].sealedAt.Some? && w'.records[id].evidence.Some? && w'.records[id].decision.Some?)
      && (id in w.records ==> id in w'.records && Kept(w.records[id], w'.records[id]))
  {
    var w' := Run(w, actions, fingerprint);
    RunKeeps(w, actions, fingerprint);
    HistoryIsGoverned(w'.log);
    HistoryKeeps(w'.log, |w.log|);
    assert w'.log[..|w.log|] == w.log;
  }

  // ---- the decision that was cut in two ----

  /** In review with a decision already on record: the state entry was lost. */
  predicate Interrupted(w: World, id: string) {
    id in w.records && w.records[id].state == InReview && w.records[id].decision.Some?
  }

  /** A decision is taken exactly for an experiment in review that has none yet. */
  lemma DecisionIsTaken(w: World, id: string, decision: string, target: State)
    requires Sound(w) && Gated(target) && decision != ""
    ensures Decide(w, id, decision, target).1.Done?
       <==> id in w.records && w.records[id].state == InReview && w.records[id].decision.None?
    ensures Decide(w, id, decision, target).1.Done? ==>
              var w' := Decide(w, id, decision, target).0;
              id in w'.records && w'.records[id].state == target && w'.records[id].decision == Some(decision)
  {
  }

  lemma CallLeavesInterrupted(w: World, c: Call, fingerprint: string -> string, id: string)
    requires Sound(w) && Interrupted(w, id)
    ensures Interrupted(Do(w, c, fingerprint).0, id)
    ensures c.CallDecide? && c.id == id ==> Do(w, c, fingerprint) == (w, Do(w, c, fingerprint).1) && Do(w, c, fingerprint).1.Refused?
    ensures c.CallTransition? && c.id == id ==> Do(w, c, fingerprint) == (w, Do(w, c, fingerprint).1) && Do(w, c, fingerprint).1.Refused?
  {
  }

  /**
   An interrupted decision is not healed by trying again: the experiment stays in review
   for good, whatever is called and however often the process restarts.
   */
  lemma {:induction false} InterruptedForGood(w: World, actions: seq<Action>, fingerprint: string -> string, id: string)
    requires Sound(w) && Interrupted(w, id)
    ensures Interrupted(Run(w, actions, fingerprint), id)
  {
    if actions != [] {
      var before, a := Run(w, actions[..|actions| - 1], fingerprint), actions[|actions| - 1];
      InterruptedForGood(w, actions[..|actions| - 1], fingerprint, id);
      RunKeeps(w, actions[..|actions| - 1], fingerprint);
      CallLeavesInterrupted(before, a.call, fingerprint, id);
      if a.CrashDuring? {
        CrashLeavesInterrupted(before, a, fingerprint, id);
      }
    }
  }

  /** Only a decision writes two entries. */
  lemma EntriesOfCall(w: World, c: Call, fingerprint: string -> string)
    requires Sound(w)
    ensures var log := Do(w, c, fingerprint).0.log;
      && w.log <= log && |log| <= |w.log| + 2
      && (|log| == |w.log| + 2 ==> c.CallDecide? && c.id in w.records && w.records[c.id].decision.None?
                                   && log[..|w.log| + 1] == w.log + [DecisionRecorded(c.id, c.decision)])
  {
    if c.CallDecide? {
      assert (w.log + [DecisionRecorded(c.id, c.decision)])[..|w.log|] == w.log;
    }
  }

  /** A cut inside one call leaves the world before it, behind it, or behind its decision entry. */
  lemma CutOfCall(w: World, c: Call, k: nat, fingerprint: string -> string)
    requires Sound(w)
    ensures var w' := Act(w, CrashDuring(c, k), fingerprint);
      || w' == w || w' == Do(w, c, fingerprint).0
      || (c.CallDecide? && c.id in w.records && w.records[c.id].decision.None? && w' == Append(w, DecisionRecorded(c.id, c.decision)))
  {
    hide Do;
    DoKeeps(w, c, fingerprint);
    EntriesOfCall(w, c, fingerprint);
    var log := Do(w, c, fingerprint).0.log;
    var n := if |w.log| + k <= |log| then |w.log| + k else |log|;
    assert n == |w.log| ==> log[..n] == w.log;
    assert n == |log| ==> log[..n] == log;
    if |w.log| < n < |log| {
      AppendKeeps(w, DecisionRecorded(c.id, c.decision));
    }
  }

  lemma CrashLeavesInterrupted(w: World, a: Action, fingerprint: string -> string, id: string)
    requires a.CrashDuring? && Sound(w) && Interrupted(w, id)
    ensures Interrupted(Act(w, a, fingerprint), id)
  {
    CallLeavesInterrupted(w, a.call, fingerprint, id);
    CutOfCall(w, a.call, a.persisted, fingerprint);
  }

  /** The cut that interrupts: after the decision, before the state. */
  lemma CutInterrupts(w: World, id: string, decision: string, target: State, fingerprint: string -> string)
    requires Sound(w) && Gated(target) && decision != ""
    requires id in w.records && w.records[id].state == InReview && w.records[id].decision.None?
    ensures Interrupted(Act(w, CrashDuring(CallDecide(id, decision, target), 1), fingerprint), id)
  {
    var e := DecisionRecorded(id, decision);
    var after := Decide(w, id, decision, target).0;
    AppendKeeps(w, e);
    assert after.log[..|w.log| + 1] == w.log + [e];
  }
}
