/**
 What each call of the registry comes to: when it is taken, which record it leaves and which
 entries it writes; and what the order of its query results means.
 */
module RegistryLaws {
  import opened Wrappers
  import opened Text
  import opened Lifecycle
  import opened Registry
  import opened Lineage

  /** Nothing but blanks. */
  predicate NoText(s: string) {
    forall c :: c in s ==> c == ' ' || c == '\t' || c == '\n' || c == '\r'
  }

  lemma BlankIsNoText(s: string)
    ensures Blank(s) <==> NoText(s)
  {
    if Blank(s) {
      forall c | c in s
        ensures c == ' ' || c == '\t' || c == '\n' || c == '\r'
      {
        var i :| 0 <= i < |s| && s[i] == c;
        assert s[i] in " \t\n\r";
      }
    }
    if NoText(s) {
      forall i | 0 <= i < |s|
        ensures s[i] in " \t\n\r"
      {
        var all := " \t\n\r";
        assert s[i] in s && all[0] == ' ' && all[1] == '\t' && all[2] == '\n' && all[3] == '\r';
      }
    }
  }

  /** The call is answered with this record, which is the only change, and writes these entries. */
  ghost predicate Leaves(w: World, w': World, out: Outcome, id: string, r: Record, entries: Log) {
    out == Done(r) && w'.records == w.records[id := r] && w'.log == w.log + entries
  }

  ghost predicate RefusedWith(w: World, w': World, out: Outcome, error: Error) {
    w' == w && out == Refused(error)
  }

  /** An experiment is created once, under an id with some text, below a parent that exists; it starts as a proposal. */
  lemma CreateLeaves(w: World, id: string, specification: string, parent: Option<string>, fingerprint: string -> string, now: string)
    ensures var (w', out) := Create(w, id, specification, parent, fingerprint, now);
      if NoText(id) || (parent.Some? && NoText(parent.value)) then RefusedWith(w, w', out, BadValue)
      else if id in w.records then RefusedWith(w, w', out, Duplicate)
      else if parent.Some? && parent.value !in w.records then RefusedWith(w, w', out, NotFound)
      else Leaves(w, w', out, id, Record(fingerprint(specification), parent, specification, now, None, None, Proposed, None),
                  [Created(id, fingerprint(specification), parent, specification, now)])
  {
    BlankIsNoText(id);
    if parent.Some? {
      BlankIsNoText(parent.value);
    }
  }

  /** A seal is set once and then stands. */
  lemma SealLeaves(w: World, id: string, now: string)
    ensures var (w', out) := Seal(w, id, now);
      if NoText(id) then RefusedWith(w, w', out, BadValue)
      else if id !in w.records then RefusedWith(w, w', out, NotFound)
      else if w.records[id].sealedAt.Some? then RefusedWith(w, w', out, AlreadySealed)
      else Leaves(w, w', out, id, w.records[id].(sealedAt := Some(now)), [Sealed(id, now)])
  {
    BlankIsNoText(id);
  }

  /** Evidence is attached once, to a sealed experiment. */
  lemma AttachLeaves(w: World, id: string, evidence: Evidence)
    ensures var (w', out) := Attach(w, id, evidence);
      if NoText(id) || NoText(evidence.fingerprint) || evidence.bundle == "" then RefusedWith(w, w', out, BadValue)
      else if id !in w.records then RefusedWith(w, w', out, NotFound)
      else if w.records[id].sealedAt.None? then RefusedWith(w, w', out, NotSealed)
      else if w.records[id].evidence.Some? then RefusedWith(w, w', out, EvidenceExists)
      else Leaves(w, w', out, id, w.records[id].(evidence := Some(evidence)), [EvidenceAttached(id, evidence)])
  {
    BlankIsNoText(id);
    BlankIsNoText(evidence.fingerprint);
  }

  /** The states that lead into a state. */
  function Sources(target: State): set<State> {
    match target
    case Proposed => {}
    case Validating => {Proposed}
    case Withdrawn => {Proposed, Validating}
    case EvidenceSealed => {Validating}
    case InReview => {EvidenceSealed}
    case Approved | Rejected | Deferred => {InReview}
    case Shakedown => {Approved}
    case FullProduction => {Shakedown}
    case Frozen => {Shakedown, FullProduction}
    case Retiring => {Shakedown, FullProduction, Frozen}
    case Retired => {Retiring}
  }

  /**
   A transition is taken from a state that leads to its target, never into a state only a
   decision may enter, and into sealed evidence only where there is some.
   */
  lemma TransitionLeaves(w: World, id: string, target: State)
    requires Sound(w)
    ensures var (w', out) := Transition(w, id, target);
      if id !in w.records then RefusedWith(w, w', out, NotFound)
      else if target in {Approved, Rejected, Deferred} then RefusedWith(w, w', out, GovernanceRequired)
      else
        var r := w.records[id];
        if r.state !in Sources(target) then RefusedWith(w, w', out, IllegalTransition)
        else if target == EvidenceSealed && r.evidence.None? then RefusedWith(w, w', out, GuardFailed)
        else Leaves(w, w', out, id, r.(state := target), [StateChanged(id, r.state, target)])
  {
    if id in w.records {
      CameFrom(w.records[id].state, target);
    }
  }

  /** A decision is taken once, in review, for one of its three outcomes, and writes two entries: itself and the state it leads to. */
  lemma DecisionLeaves(w: World, id: string, decision: string, target: State)
    requires Sound(w)
    ensures var (w', out) := Decide(w, id, decision, target);
      if target !in {Approved, Rejected, Deferred} || decision == "" then RefusedWith(w, w', out, BadValue)
      else if id !in w.records then RefusedWith(w, w', out, NotFound)
      else
        var r := w.records[id];
        if r.state != InReview || r.decision.Some? then RefusedWith(w, w', out, GuardFailed)
        else Leaves(w, w', out, id, r.(decision := Some(decision), state := target),
                    [DecisionRecorded(id, decision), StateChanged(id, InReview, target)])
  {
    if target in {Approved, Rejected, Deferred} && decision != "" && id in w.records {
      CameFrom(w.records[id].state, target);
      assert w.log + [DecisionRecorded(id, decision)] + [StateChanged(id, InReview, target)]
          == w.log + [DecisionRecorded(id, decision), StateChanged(id, InReview, target)];
    }
  }

  // ---- lineage ----

  /** The ancestors start at a root, each is the parent of the next, and the last is the parent of the experiment. */
  lemma {:induction false} AncestorsClimb(rs: Records, born: seq<string>, id: string)
    requires Lineage.Ordered(rs, born) && id in rs
    ensures var line := Ancestors(rs, born, id) + [id];
      && (forall i :: 0 <= i < |line| ==> line[i] in rs)
      && rs[line[0]].parent == None
      && forall i :: 0 < i < |line| ==> rs[line[i]].parent == Some(line[i - 1])
    decreases Age(born, id)
  {
    var line := Ancestors(rs, born, id) + [id];
    match rs[id].parent
    case None =>
    case Some(p) =>
      ParentIsOlder(rs, born, id);
      AncestorsClimb(rs, born, p);
      assert line[..|line| - 1] == Ancestors(rs, born, p) + [p];
      assert forall i :: 0 <= i < |line| - 1 ==> line[i] == line[..|line| - 1][i];
  }

  /** One text comes before another, character by character. */
  predicate Precedes(a: string, b: string) {
    a != b && (a <= b || exists k :: 0 <= k < |a| && k < |b| && a[..k] == b[..k] && a[k] < b[k])
  }

  lemma {:induction false} AtMostIsPrecedes(a: string, b: string)
    ensures AtMost(a, b) <==> a == b || Precedes(a, b)
  {
    if a != "" && b != "" {
      AtMostIsPrecedes(a[1..], b[1..]);
      if a[0] == b[0] {
        SameHead(a, b);
      } else if a[0] < b[0] {
        assert a[..0] == b[..0];
      }
    }
  }

  lemma SameHead(a: string, b: string)
    requires a != "" && b != "" && a[0] == b[0]
    ensures Precedes(a, b) <==> Precedes(a[1..], b[1..])
  {
    var x, y := a[1..], b[1..];
    assert a == [a[0]] + x && b == [b[0]] + y;
    if Precedes(x, y) && !(x <= y) {
      var k :| 0 <= k < |x| && k < |y| && x[..k] == y[..k] && x[k] < y[k];
      assert a[..k + 1] == [a[0]] + x[..k] && b[..k + 1] == [b[0]] + y[..k] && a[k + 1] < b[k + 1];
    }
    if Precedes(a, b) && !(a <= b) {
      var k :| 0 <= k < |a| && k < |b| && a[..k] == b[..k] && a[k] < b[k];
      assert k > 0;
      assert x[..k - 1] == a[..k][1..] && y[..k - 1] == b[..k][1..] && x[k - 1] < y[k - 1];
    }
  }

  /** Query results stand by their time of creation, and by id where that is the same. */
  lemma SortedByCreation(rs: Records, ids: seq<string>)
    requires forall i :: 0 <= i < |ids| ==> ids[i] in rs
    ensures Sorted(rs, ids) <==> forall i, j :: 0 <= i < j < |ids| ==>
      || Precedes(rs[ids[i]].created, rs[ids[j]].created)
      || (rs[ids[i]].created == rs[ids[j]].created && Precedes(ids[i], ids[j]))
  {
    forall i, j | 0 <= i < j < |ids|
      ensures ids[i] != ids[j] && NotAfter(rs, ids[i], ids[j]) <==>
        || Precedes(rs[ids[i]].created, rs[ids[j]].created)
        || (rs[ids[i]].created == rs[ids[j]].created && Precedes(ids[i], ids[j]))
    {
      AtMostIsPrecedes(rs[ids[i]].created, rs[ids[j]].created);
      AtMostIsPrecedes(ids[i], ids[j]);
    }
  }
}
