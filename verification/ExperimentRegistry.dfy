/** The experiment registry object: it stores an entry before it changes a record. */
module ExperimentRegistry {
  import opened Wrappers
  import opened Lifecycle
  import opened Registry
  import Lineage

  /** Append-only storage, read back as a whole. */
  class Storage {
    var entries: seq<Entry>

    constructor ()
      ensures entries == []
    {
      entries := [];
    }

    method Append(e: Entry)
      modifies this
      ensures entries == old(entries) + [e]
    {
      entries := entries + [e];
    }
  }

  class ExperimentRegistry {
    const storage: Storage
    const fingerprint: string -> string
    var records: Records

    ghost function State(): World
      reads this, storage
    {
      World(records, storage.entries)
    }

    ghost predicate Valid()
      reads this, storage
    {
      Sound(State())
    }

    constructor Empty(storage: Storage, fingerprint: string -> string)
      ensures this.storage == storage && this.fingerprint == fingerprint && records == map[]
    {
      this.storage, this.fingerprint, records := storage, fingerprint, map[];
    }

    /** Rebuilds the records from storage; null when the log is malformed. */
    static method Construct(storage: Storage, fingerprint: string -> string) returns (r: ExperimentRegistry?)
      ensures r == null <==> Replay(storage.entries).None?
      ensures r != null ==> fresh(r) && r.storage == storage && r.fingerprint == fingerprint
                            && Replay(storage.entries) == Some(r.records)
      ensures r != null && Proper(storage.entries) ==> r.Valid()
    {
      r := new ExperimentRegistry.Empty(storage, fingerprint);
      var i := 0;
      while i < |storage.entries|
        invariant 0 <= i <= |storage.entries| && fresh(r) && r.storage == storage && r.fingerprint == fingerprint
        invariant Replay(storage.entries[..i]) == Some(r.records)
      {
        assert storage.entries[..i + 1][..i] == storage.entries[..i];
        var ok := r.ApplyEntry(storage.entries[i]);
        if !ok {
          ReplayStaysBroken(storage.entries, i + 1);
          return null;
        }
        i := i + 1;
      }
      assert storage.entries[..i] == storage.entries;
    }

    /** Applies one entry in place; false is the malformed-log error. */
    method ApplyEntry(e: Entry) returns (ok: bool)
      modifies this`records
      ensures ok == Apply(old(records), e).Some? && records == Apply(old(records), e).GetOr(old(records))
    {
      match e {
        case Created(id, mark, parent, specification, at) =>
          if id in records || (parent.Some? && parent.value !in records) { return false; }
          records := records[id := NewRecord(mark, parent, specification, at)];
        case Sealed(id, at) =>
          if id !in records || records[id].sealedAt.Some? { return false; }
          records := records[id := records[id].(sealedAt := Some(at))];
        case EvidenceAttached(id, evidence) =>
          if id !in records || records[id].sealedAt.None? || records[id].evidence.Some? { return false; }
          records := records[id := records[id].(evidence := Some(evidence))];
        case StateChanged(id, source, target) =>
          if id !in records || records[id].state != source || !Legal(source, target) { return false; }
          if Gated(target) && records[id].decision.None? { return false; }
          records := records[id := records[id].(state := target)];
        case DecisionRecorded(id, decision) =>
          if id !in records || records[id].state != InReview || records[id].decision.Some? { return false; }
          records := records[id := records[id].(decision := Some(decision))];
        case Unrecognized => return false;
      }
      return true;
    }

    method CreateExperiment(id: string, specification: string, parent: Option<string>, now: string) returns (out: Outcome)
      requires Valid()
      modifies this`records, storage
      ensures Valid() && (State(), out) == Create(old(State()), id, specification, parent, fingerprint, now)
    {
      ghost var c := CallCreate(id, specification, parent, now);
      DoKeeps(State(), c, fingerprint);
      if Blank(id) || (parent.Some? && Blank(parent.value)) { return Refused(BadValue); }
      if id in records { return Refused(Duplicate); }
      if parent.Some? && parent.value !in records { return Refused(NotFound); }
      var mark := fingerprint(specification);
      storage.Append(Created(id, mark, parent, specification, now));
      records := records[id := NewRecord(mark, parent, specification, now)];
      return Done(records[id]);
    }

    method SealExperiment(id: string, now: string) returns (out: Outcome)
      requires Valid()
      modifies this`records, storage
      ensures Valid() && (State(), out) == Seal(old(State()), id, now)
    {
      DoKeeps(State(), CallSeal(id, now), fingerprint);
      if Blank(id) { return Refused(BadValue); }
      if id !in records { return Refused(NotFound); }
      if records[id].sealedAt.Some? { return Refused(AlreadySealed); }
      storage.Append(Sealed(id, now));
      records := records[id := records[id].(sealedAt := Some(now))];
      return Done(records[id]);
    }

    method AttachEvidence(id: string, evidence: Evidence) returns (out: Outcome)
      requires Valid()
      modifies this`records, storage
      ensures Valid() && (State(), out) == Attach(old(State()), id, evidence)
    {
      DoKeeps(State(), CallAttach(id, evidence), fingerprint);
      if Blank(id) || Blank(evidence.fingerprint) || evidence.bundle == "" { return Refused(BadValue); }
      if id !in records { return Refused(NotFound); }
      if records[id].sealedAt.None? { return Refused(NotSealed); }
      if records[id].evidence.Some? { return Refused(EvidenceExists); }
      storage.Append(EvidenceAttached(id, evidence));
      records := records[id := records[id].(evidence := Some(evidence))];
      return Done(records[id]);
    }

    method MoveTo(id: string, target: State) returns (out: Outcome)
      requires Valid() && id in records && (Gated(target) ==> records[id].decision.Some?)
      modifies this`records, storage
      ensures Valid() && (State(), out) == Move(old(State()), id, target)
    {
      MoveKeeps(State(), id, target);
      var source := records[id].state;
      if !Legal(source, target) { return Refused(IllegalTransition); }
      if target == EvidenceSealed && records[id].evidence.None? { return Refused(GuardFailed); }
      storage.Append(StateChanged(id, source, target));
      records := records[id := records[id].(state := target)];
      return Done(records[id]);
    }

    method ChangeState(id: string, target: State) returns (out: Outcome)
      requires Valid()
      modifies this`records, storage
      ensures Valid() && (State(), out) == Transition(old(State()), id, target)
    {
      if id !in records { return Refused(NotFound); }
      if Gated(target) { return Refused(GovernanceRequired); }
      out := MoveTo(id, target);
    }

    /** The only way into the gated states: the decision is stored first, then the state. */
    method ApplyGovernanceDecision(id: string, decision: string, target: State) returns (out: Outcome)
      requires Valid()
      modifies this`records, storage
      ensures Valid() && (State(), out) == Decide(old(State()), id, decision, target)
    {
      if !Gated(target) || decision == "" { return Refused(BadValue); }
      if id !in records { return Refused(NotFound); }
      if records[id].state != InReview { return Refused(GuardFailed); }
      if records[id].decision.Some? { return Refused(GuardFailed); }
      AppendKeeps(State(), DecisionRecorded(id, decision));
      storage.Append(DecisionRecorded(id, decision));
      records := records[id := records[id].(decision := Some(decision))];
      out := MoveTo(id, target);
    }

    // ---- lineage ----

    /** Never a cycle, never an unknown parent: the ancestors of a known experiment, root first. */
    method Ancestors(id: string) returns (out: Lineage.Walk)
      requires Valid()
      ensures Lineage.Ordered(records, Lineage.Born(storage.entries))
      ensures out == if id in records then Lineage.Found(Lineage.Ancestors(records, Lineage.Born(storage.entries), id))
                     else Lineage.NotRegistered
    {
      Lineage.HistoryIsOrdered(storage.entries);
      out := Lineage.GetAncestors(records, id, Lineage.Born(storage.entries));
    }

    /** The dual walk: exactly those that have `id` among their ancestors, each once, level by level. */
    method Descendants(id: string) returns (out: Lineage.Walk, ghost from: seq<nat>)
      requires Valid()
      ensures Lineage.Ordered(records, Lineage.Born(storage.entries))
      ensures if id !in records then out == Lineage.NotRegistered
              else out.Found? && Lineage.Distinct(out.ids)
                   && forall y :: y in out.ids <==> y in records && id in Lineage.Ancestors(records, Lineage.Born(storage.entries), y)
      ensures out.Found? ==> Lineage.ByLevels(records, id, out.ids, from)
    {
      Lineage.HistoryIsOrdered(storage.entries);
      out, from := Lineage.GetDescendants(records, id, Lineage.Born(storage.entries));
    }
  }

  /** Once a log fails to replay, no longer one does. */
  lemma {:induction false} ReplayStaysBroken(log: Log, n: nat)
    requires n <= |log| && Replay(log[..n]).None?
    ensures Replay(log).None?
    decreases |log|
  {
    if n < |log| {
      assert log[..|log| - 1][..n] == log[..n];
      ReplayStaysBroken(log[..|log| - 1], n);
    } else {
      assert log[..n] == log;
    }
  }
}
