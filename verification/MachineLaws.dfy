/** What a transition request is answered, on any log the machines and other writers can reach. */
module MachineLaws {
  import opened Wrappers
  import opened Text
  import opened EventLog
  import opened ExecutionStates
  import opened ExecutionMachine

  /** The key a request is stored under. */
  function StoredUnder(machine: string, request: string): string {
    "execution_state_machine" + (":" + ((Decimal(|machine|) + ":" + machine) + (":" + (Decimal(|request|) + ":" + request))))
  }

  /** Sixty characters at most, and not all of them blanks. */
  predicate Acceptable(request: string) {
    |request| <= 60 && exists i :: 0 <= i < |request| && request[i] != ' ' && request[i] != '\t' && request[i] != '\n' && request[i] != '\r'
  }

  lemma StoredIsOwn(w: World, machine: string, request: string)
    requires Good(w) && HasKey(w.log, StoredUnder(machine, request))
    ensures var e := Find(w.log, StoredUnder(machine, request)).value; Own(e, machine)
  {
    var e := Find(w.log, StoredUnder(machine, request)).value;
    assert StoredUnder(machine, request) == NamespacedKey(machine, request);
    var i :| 0 <= i < |w.log| && w.log[i] == e;
    assert Keyed(w.log[i]) && OwnNamespace(NamespacedKey(machine, request));
    if e.payload.Transition? {
      var r :| e.key == Some(NamespacedKey(e.payload.machine, r));
      NamespacedKeyInjective(e.payload.machine, r, machine, request);
    }
  }

  /**
   The answer to a request.  An id with no text or too long is refused.  An id answered
   before gets the event of that answer, whatever is asked now.  A new one is taken exactly
   when the table has an edge: one event is stored, under the key of machine and request,
   saying from where to where, and the machine is there.
   */
  lemma RequestAnswers(w: World, machine: string, trigger: Trigger, request: string)
    requires Good(w) && machine in w.live
    ensures var state, key := w.live[machine], StoredUnder(machine, request);
            var (log, s, reply) := Request(w.log, machine, state, trigger, request);
      if !Acceptable(request) then (log, s, reply) == (w.log, state, BadRequest)
      else if HasKey(w.log, key) then
        && log == w.log && s == state && Find(w.log, key).Some?
        && var e := Find(w.log, key).value;
           Own(e, machine) && reply == Done(e.id, e.payload.trigger, e.payload.source, e.payload.target, true)
      else match Next(state, trigger)
        case None => (log, s, reply) == (w.log, state, IllegalTransition)
        case Some(to) =>
          && log == w.log + [Event(NextId(w.log), Some(key), Transition(machine, trigger, state, to))]
          && s == to && reply == Done(NextId(w.log), trigger, state, to, false)
  {
    assert StoredUnder(machine, request) == NamespacedKey(machine, request);
    assert Acceptable(request) <==> ValidId(request);
    if HasKey(w.log, StoredUnder(machine, request)) {
      StoredIsOwn(w, machine, request);
    }
  }
}
