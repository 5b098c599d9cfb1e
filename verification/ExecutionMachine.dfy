/**
 Execution state machines on a shared log.  Each machine persists a transition before it
 takes it, and a restarted machine rebuilds its state from its own events.
 */
module ExecutionMachine {
  import opened Wrappers
  import opened Text
  import opened EventLog
  import opened ExecutionStates

  /** A recorded transition, or an event of some other component. */
  datatype Payload = Transition(machine: string, trigger: Trigger, source: State, target: State) | Foreign(tag: string)
  type Entry = Event<string, Payload>

  const SOURCE_TAG := "execution_state_machine"
  const MAX_ID_LENGTH: nat := 60

  predicate Blank(s: string) {
    forall i :: 0 <= i < |s| ==> s[i] in {' ', '\t', '\n', '\r'}
  }

  predicate ValidId(s: string) {
    !Blank(s) && |s| <= MAX_ID_LENGTH
  }

  function NamespacedKey(machine: string, request: string): string {
    SOURCE_TAG + (":" + (Sized(machine) + (":" + Sized(request))))
  }

  /** Whatever characters the two ids contain, no two pairs share a key. */
  lemma NamespacedKeyInjective(m: string, r: string, m': string, r': string)
    requires NamespacedKey(m, r) == NamespacedKey(m', r')
    ensures m == m' && r == r'
  {
    var k, k' := NamespacedKey(m, r), NamespacedKey(m', r');
    var x, x' := ":" + Sized(r), ":" + Sized(r');
    assert k[|SOURCE_TAG| + 1..] == Sized(m) + x && k'[|SOURCE_TAG| + 1..] == Sized(m') + x';
    SizedSplits(m, x, m', x');
    assert x[1..] == Sized(r) + [] && x'[1..] == Sized(r') + [];
    SizedSplits(r, [], r', []);
  }

  predicate Own(e: Entry, machine: string) {
    e.payload.Transition? && e.payload.machine == machine
  }

  /** One replay step; None is the integrity error. */
  function Advance(s: State, p: Payload): Option<State>
    requires p.Transition?
  {
    if p.source == s && Edge(p.source, p.trigger, p.target) then Some(p.target) else None
  }

  function Replay(log: seq<Entry>, machine: string): Option<State> {
    if log == [] then Some(Initializing)
    else
      var before, e := Replay(log[..|log| - 1], machine), log[|log| - 1];
      if before.Some? && Own(e, machine) then Advance(before.value, e.payload) else before
  }

  /** The states a machine's own events lead through, from the initial one. */
  function Visited(log: seq<Entry>, machine: string): (ss: seq<State>)
    ensures ss != []
  {
    if log == [] then [Initializing]
    else
      var before, e := Visited(log[..|log| - 1], machine), log[|log| - 1];
      if Own(e, machine) then before + [e.payload.target] else before
  }

  /** A replay that succeeds is a path of the table ending in the replayed state. */
  lemma {:induction false} ReplayIsPath(log: seq<Entry>, machine: string)
    requires Replay(log, machine).Some?
    ensures var ss := Visited(log, machine);
            ss[0] == Initializing && IsPath(ss) && ss[|ss| - 1] == Replay(log, machine).value
  {
    if log != [] {
      var front, e := log[..|log| - 1], log[|log| - 1];
      ReplayIsPath(front, machine);
      if Own(e, machine) {
        var ss, n := Visited(front, machine), |Visited(front, machine)|;
        assert Edge(ss[n - 1], e.payload.trigger, e.payload.target);
        assert Joined(ss[n - 1], e.payload.target);
        forall i | 0 <= i < n
          ensures Joined((ss + [e.payload.target])[i], (ss + [e.payload.target])[i + 1])
        {
          if i < n - 1 {
            assert Joined(ss[i], ss[i + 1]);
          }
        }
      }
    }
  }

  // ---- requests ----

  datatype Reply =
    | Done(eventId: nat, trigger: Trigger, source: State, target: State, replayed: bool)
    | IllegalTransition
    | BadRequest
    | KeyCollision

  function DoneFrom(e: Entry, replayed: bool): Reply
    requires e.payload.Transition?
  {
    Done(e.id, e.payload.trigger, e.payload.source, e.payload.target, replayed)
  }

  /** What a transition request does to the log and to the machine's state. */
  function Request(log: seq<Entry>, machine: string, state: State, trigger: Trigger, request: string)
    : (seq<Entry>, State, Reply)
  {
    var key := NamespacedKey(machine, request);
    var existing := Find(log, key);
    if !ValidId(request) then (log, state, BadRequest)
    else if existing.Some? then
      (log, state, if Own(existing.value, machine) then DoneFrom(existing.value, true) else KeyCollision)
    else
      var to := Next(state, trigger);
      if to.None? then (log, state, IllegalTransition)
      else
        var p := Transition(machine, trigger, state, to.value);
        (log + [Event(NextId(log), Some(key), p)], to.value, Done(NextId(log), trigger, state, to.value, false))
  }

  // ---- runs of many machines on one log ----

  /** The log, and the in-memory state of every machine that is up. */
  datatype World = World(log: seq<Entry>, live: map<string, State>)

  datatype Action =
    | Construct(machine: string)
    | Ask(machine: string, trigger: Trigger, request: string)
    | Other(key: Option<string>, tag: string)
    | Crash

  ghost predicate OwnNamespace(key: string) {
    exists m, r :: key == NamespacedKey(m, r)
  }

  /** Other components keep out of this namespace; the source tag comes first in every key. */
  ghost predicate Allowed(a: Action) {
    a.Other? && a.key.Some? ==> !OwnNamespace(a.key.value)
  }

  function Act(w: World, a: Action): World {
    match a
    case Construct(m) =>
      var s := Replay(w.log, m);
      if ValidId(m) && s.Some? then w.(live := w.live[m := s.value]) else w
    case Ask(m, trigger, request) =>
      if m !in w.live then w
      else
        var (log, s, _) := Request(w.log, m, w.live[m], trigger, request);
        World(log, w.live[m := s])
    case Other(key, tag) => w.(log := Appended(w.log, key, Foreign(tag)))
    case Crash => w.(live := map[])
  }

  function Run(w: World, actions: seq<Action>): World {
    if actions == [] then w
    else Act(Run(w, actions[..|actions| - 1]), actions[|actions| - 1])
  }

  /** Keys and payloads of the log match: an own event carries its machine's key, others do not. */
  ghost predicate Keyed(e: Entry) {
    match e.payload
    case Transition(m, _, _, _) => exists r :: e.key == Some(NamespacedKey(m, r))
    case Foreign(_) => e.key.Some? ==> !OwnNamespace(e.key.value)
  }

  ghost predicate Good(w: World) {
    && Ordered(w.log)
    && (forall i :: 0 <= i < |w.log| ==> Keyed(w.log[i]))
    && (forall m :: Replay(w.log, m).Some?)
    && (forall m :: m in w.live ==> Replay(w.log, m) == Some(w.live[m]))
  }

  lemma AppendOwn(w: World, m: string, trigger: Trigger, request: string)
    requires Good(w) && m in w.live && Act(w, Ask(m, trigger, request)).log != w.log
    ensures Good(Act(w, Ask(m, trigger, request)))
  {
    var w' := Act(w, Ask(m, trigger, request));
    var key := NamespacedKey(m, request);
    var e := w'.log[|w.log|];
    assert w'.log == Appended(w.log, Some(key), e.payload);
    AppendedKeepsOrder(w.log, Some(key), e.payload);
    assert e.key == Some(NamespacedKey(m, request));
    assert w'.log[..|w.log|] == w.log;
    forall n
      ensures Replay(w'.log, n) == if n == m then Some(w'.live[m]) else Replay(w.log, n)
    {
    }
  }

  lemma OtherIsIgnored(w: World, w': World)
    requires w'.log != [] && w'.log[..|w'.log| - 1] == w.log && w'.log[|w'.log| - 1].payload.Foreign?
    ensures forall n :: Replay(w'.log, n) == Replay(w.log, n)
  {
  }

  lemma ActKeepsGood(w: World, a: Action)
    requires Good(w) && Allowed(a)
    ensures Good(Act(w, a)) && w.log <= Act(w, a).log
  {
    if a.Other? {
      var w' := Act(w, a);
      AppendedKeepsOrder(w.log, a.key, Foreign(a.tag));
      if w'.log != w.log {
        assert w'.log[..|w.log|] == w.log;
        OtherIsIgnored(w, w');
      }
    } else if a.Ask? && Act(w, a).log != w.log {
      AppendOwn(w, a.machine, a.trigger, a.request);
    }
  }

  /**
   For any interleaving of machines, other writers, crashes and restarts on one log: every
   machine's own events replay, the replay is a path of the table from the initial state,
   and it ends in the state every running instance holds.
   */
  lemma {:induction false} RunIsGood(actions: seq<Action>)
    requires forall i :: 0 <= i < |actions| ==> Allowed(actions[i])
    ensures var w := Run(World([], map[]), actions);
      && Good(w)
      && forall m :: var ss := Visited(w.log, m);
           ss[0] == Initializing && IsPath(ss) && (m in w.live ==> ss[|ss| - 1] == w.live[m])
  {
    var w := Run(World([], map[]), actions);
    if actions != [] {
      RunIsGood(actions[..|actions| - 1]);
      ActKeepsGood(Run(World([], map[]), actions[..|actions| - 1]), actions[|actions| - 1]);
    }
    forall m
      ensures var ss := Visited(w.log, m);
              ss[0] == Initializing && IsPath(ss) && (m in w.live ==> ss[|ss| - 1] == w.live[m])
    {
      ReplayIsPath(w.log, m);
    }
  }

  /** Kill-switch safety of a machine's persisted history, after any run: an emergency kill is final. */
  lemma KilledForGood(actions: seq<Action>, m: string, i: nat, j: nat)
    requires forall k :: 0 <= k < |actions| ==> Allowed(actions[k])
    requires var ss := Visited(Run(World([], map[]), actions).log, m); i <= j < |ss| && ss[i] == EmergencyKill
    ensures var ss := Visited(Run(World([], map[]), actions).log, m); ss[j] in {EmergencyKill, Stopped}
  {
    RunIsGood(actions);
    EmergencyKillIsFinal(Visited(Run(World([], map[]), actions).log, m), i, j);
  }

  /** No machine is ready again after a soft or hard kill without having reconciled. */
  lemma ReconciledBeforeReady(actions: seq<Action>, m: string, i: nat, j: nat)
    requires forall k :: 0 <= k < |actions| ==> Allowed(actions[k])
    requires var ss := Visited(Run(World([], map[]), actions).log, m); i < j < |ss| && ss[i] in {SoftKill, HardKill} && ss[j] == Ready
    ensures var ss := Visited(Run(World([], map[]), actions).log, m); exists k :: i < k < j && ss[k] == Reconciling
  {
    RunIsGood(actions);
    ReconcileBeforeReady(Visited(Run(World([], map[]), actions).log, m), i, j);
  }

  /** No machine has stopped out from under an order or a position. */
  lemma NeverStoppedInFlight(actions: seq<Action>, m: string, i: nat, j: nat)
    requires forall k :: 0 <= k < |actions| ==> Allowed(actions[k])
    requires var ss := Visited(Run(World([], map[]), actions).log, m); i < j < |ss| && InFlight(ss[i]) && ss[j] == Stopped
    ensures var ss := Visited(Run(World([], map[]), actions).log, m);
            exists k :: i < k < j && ss[k] in {SoftKill, HardKill, EmergencyKill, Ready, Flat}
  {
    RunIsGood(actions);
    NoStopInFlight(Visited(Run(World([], map[]), actions).log, m), i, j);
  }

  lemma {:induction false} RunExtends(w: World, actions: seq<Action>)
    requires Good(w) && forall i :: 0 <= i < |actions| ==> Allowed(actions[i])
    ensures Good(Run(w, actions)) && w.log <= Run(w, actions).log
  {
    if actions != [] {
      RunExtends(w, actions[..|actions| - 1]);
      ActKeepsGood(Run(w, actions[..|actions| - 1]), actions[|actions| - 1]);
    }
  }

  /** An answered request has an event of its own in the log, and the answer is read off it. */
  lemma AnswerIsLogged(w: World, m: string, trigger: Trigger, request: string) returns (e: Entry)
    requires Good(w) && m in w.live && Request(w.log, m, w.live[m], trigger, request).2.Done?
    ensures e in Act(w, Ask(m, trigger, request)).log
    ensures e.key == Some(NamespacedKey(m, request)) && Own(e, m)
    ensures DoneFrom(e, true) == Request(w.log, m, w.live[m], trigger, request).2.(replayed := true)
  {
    var log := Act(w, Ask(m, trigger, request)).log;
    var found := Find(w.log, NamespacedKey(m, request));
    e := if found.Some? then found.value else log[|w.log|];
  }

  lemma AnswerFromLog(w: World, m: string, e: Entry, trigger: Trigger, request: string)
    requires Good(w) && m in w.live && e in w.log && Own(e, m)
    requires ValidId(request) && e.key == Some(NamespacedKey(m, request))
    ensures Request(w.log, m, w.live[m], trigger, request) == (w.log, w.live[m], DoneFrom(e, true))
  {
    FindIsUnique(w.log, e);
  }

  /**
   A request id answered once is answered the same way ever after, whatever happened in
   between and whatever trigger the retry names, and the retry appends nothing.
   */
  lemma RepeatedRequest(w: World, m: string, trigger: Trigger, request: string, later: seq<Action>, retry: Trigger)
    requires Good(w) && m in w.live && Request(w.log, m, w.live[m], trigger, request).2.Done?
    requires forall i :: 0 <= i < |later| ==> Allowed(later[i])
    requires m in Run(Act(w, Ask(m, trigger, request)), later).live
    ensures var first := Request(w.log, m, w.live[m], trigger, request).2;
            var w2 := Run(Act(w, Ask(m, trigger, request)), later);
            Request(w2.log, m, w2.live[m], retry, request) == (w2.log, w2.live[m], first.(replayed := true))
  {
    var w1 := Act(w, Ask(m, trigger, request));
    ActKeepsGood(w, Ask(m, trigger, request));
    var e := AnswerIsLogged(w, m, trigger, request);
    RunExtends(w1, later);
    AnswerFromLog(Run(w1, later), m, e, retry, request);
  }

  // ---- the machine object ----

  class ExecutionStateMachine {
    const store: SharedLog<string, Payload>
    const machineId: string
    var currentState: State

    constructor At(store: SharedLog<string, Payload>, machineId: string, s: State)
      ensures this.store == store && this.machineId == machineId && currentState == s
    {
      this.store, this.machineId, currentState := store, machineId, s;
    }

    /** Rebuilds a machine from the log; null for a bad id or a history that does not replay. */
    static method Construct(store: SharedLog<string, Payload>, machineId: string) returns (m: ExecutionStateMachine?)
      ensures m == null <==> !ValidId(machineId) || Replay(store.events, machineId).None?
      ensures m != null ==> fresh(m) && m.store == store && m.machineId == machineId
                            && Replay(store.events, machineId) == Some(m.currentState)
    {
      if !ValidId(machineId) { return null; }
      var state := Initializing;
      var i := 0;
      while i < |store.events|
        invariant 0 <= i <= |store.events|
        invariant Replay(store.events[..i], machineId) == Some(state)
      {
        var e := store.events[i];
        assert store.events[..i + 1][..i] == store.events[..i];
        if Own(e, machineId) {
          if !(e.payload.source == state && Edge(e.payload.source, e.payload.trigger, e.payload.target)) {
            ReplayStaysBroken(store.events, i + 1, machineId);
            return null;
          }
          state := e.payload.target;
        }
        i := i + 1;
      }
      assert store.events[..i] == store.events;
      m := new ExecutionStateMachine.At(store, machineId, state);
    }

    method Transition(trigger: Trigger, request: string) returns (reply: Reply)
      modifies this, store
      ensures (store.events, currentState, reply)
           == Request(old(store.events), machineId, old(currentState), trigger, request)
    {
      if !ValidId(request) { return BadRequest; }
      var key := NamespacedKey(machineId, request);
      var existing := Find(store.events, key);
      if existing.Some? {
        return if Own(existing.value, machineId) then DoneFrom(existing.value, true) else KeyCollision;
      }
      var to := Next(currentState, trigger);
      if to.None? { return IllegalTransition; }
      var e := store.Append(Some(key), Payload.Transition(machineId, trigger, currentState, to.value));
      reply := DoneFrom(e, false);
      currentState := to.value;
    }
  }

  /** Once a history fails to replay, no longer one does. */
  lemma {:induction false} ReplayStaysBroken(log: seq<Entry>, n: nat, machine: string)
    requires n <= |log| && Replay(log[..n], machine).None?
    ensures Replay(log, machine).None?
    decreases |log|
  {
    if n < |log| {
      assert log[..|log| - 1][..n] == log[..n];
      ReplayStaysBroken(log[..|log| - 1], n, machine);
    } else {
      assert log[..n] == log;
    }
  }
}
